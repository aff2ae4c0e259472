# Salon booking core, modelled in Dafny

This project models the client-side core of a nail-salon booking application:

- the Pinia stores for the booking wizard, the business settings, the service
  catalogue, the product inventory and the signed-in profile;
- the nested, lazily loaded combobox composable;
- the transform from appointment rows to calendar events, with its status styling
  and duration labels;
- the storage path builders;
- the date-aware serializer and deserializer that src/stores/persistanceHelpers.ts exports for the persisted-state plugin (no store in the source installs them: every `persist` block uses the plugin's default JSON serializer);
- the `v-contenteditable` directive.

Each store or composable that updates its state in place is a `class`. Its
fields are the store's state, and each action is a `method` whose `ensures`
ties the new state to a pure transition function or to the values the action
computes. Getters are functions with `reads this`. Pure helpers are functions
over datatypes, and the properties are lemmas over those functions.

Network calls (Supabase queries, RPCs, uploads) are not performed. Each one is a
parameter carrying the response the action would receive (`Result<...>`), or the
row the action would send is returned as an out-parameter. Clocks (`Date.now()`,
`new Date().toISOString()`) are parameters as well.

Modules, one per source file:

| module | file |
|---|---|
| `Booking` | src/stores/booking.ts |
| `Business` | src/stores/business.ts |
| `Combobox` | src/components/ui/enhanced-combobox/useEnhancedCombobox.ts |
| `Calendar` | src/composables/useAppointmentCalendar.ts |
| `Services` | src/stores/services.ts |
| `Inventory` | src/stores/inventory.ts |
| `Profile` | src/stores/profile.ts |
| `Storage` | src/lib/storage.ts |
| `Persistence` | src/stores/persistanceHelpers.ts |
| `Editable` | src/directives/editable.ts |

Shared helper modules:

- `Wrappers`: `Option` and `Result`.
- `Strings`: ASCII case mapping, JavaScript whitespace trimming, `includes`,
  `split`/`join`, decimal printing, code-point order.
- `Js`: truthiness, `||` and `??` over optional values.
- `JsNumber`: `Number(s)` on a string (StringToNumber, section 7.1.4.1 of ECMA-262), truncated to an integer as `setHours` does; it is how `createBooking` reads the hour and minute of the chosen time.
- `Lists`: `map`, `filter`, `flatMap`, `find`.
- `Sorting`: a stable insertion sort by a total preorder. It stands in for
  `Array.prototype.sort`, which has been stable since ECMAScript 2019.

Some behaviours as the code is written:

- `useEnhancedCombobox.ts` states the "can create a new option" condition twice:
  - the computed `canCreateNew` compares the trimmed search against the labels;
  - the keydown handler compares the untrimmed search.

  They agree on trimmed searches and disagree on the padded search `" a"`, both ways
  (`Combobox.CreateConditionsDisagree`).
- `createProduct` reads `data[0]` of the single row that `.single()` returns. That
  is `undefined`, so the local product list is never extended; the model's
  `Inventory.InventoryStore.CreateProduct` changes no state.
- `enabledDays` sorts with the default comparator, which compares decimal
  strings. On weekday numbers 0..6 this is numeric order, but it puts 10 before 9
  (`Business.DefaultSortNotNumeric`).
- With the `trim`, `uppercase` and `default` modifiers, a blank title first
  commits as `Untitled` and then, on the next blur, as `UNTITLED`
  (`Editable.PlaceholderRecased`).

## Model

| member | source | states |
|---|---|---|
| Booking.SumByAppend | src/stores/booking.ts:68-88 | a sum over concatenated lists is the sum of the two sums |
| Booking.SumByPermutation | src/stores/booking.ts:68-88 | a sum depends only on the multiset of summed items, not their order |
| Booking.SumBy | src/stores/booking.ts:72-75 | a left fold of `sum + f(x)` from 0, never negative when every term is non-negative |
| Booking.TotalDuration | src/stores/booking.ts:68-78 | 0 without a service; the service's own duration without add-ons; never below the service's duration when no add-on subtracts time |
| Booking.TotalPrice | src/stores/booking.ts:81-88 | 0 without a service; the base price without add-ons; never below the base price when no add-on has a negative price |
| Booking.TotalsWithoutService | src/stores/booking.ts:68-88 | with no service both the total duration and the total price are 0, whatever add-ons are chosen |
| Booking.TotalsWithoutAddons | src/stores/booking.ts:68-88 | with no add-ons the totals are the service's duration and base price |
| Booking.TotalsAddOne | src/stores/booking.ts:68-88 | adding one add-on adds its minutes and its price, each counted as 0 when missing |
| Booking.TotalsOrderIndependent | src/stores/booking.ts:68-88 | the totals do not depend on the order in which add-ons were picked |
| Booking.DetailsNeedDateTime | src/stores/booking.ts:91-108 | step 4 is reachable exactly when a date and a non-empty time are chosen and name, WhatsApp and phone are non-empty |
| Booking.DateTimeChosen | src/stores/booking.ts:91-93 | holds exactly when a date is set and the time is a non-empty string |
| Booking.DetailsComplete | src/stores/booking.ts:101-108 | requires a chosen date and time and non-empty name, WhatsApp number and phone |
| Booking.BookingStore.CanProceedToStep2 | src/stores/booking.ts:91-98 | steps 2 and 3 are reachable exactly when a date is set and the time is a non-empty string |
| Booking.BookingStore.CanProceedToStep4 | src/stores/booking.ts:101-108 | step 4 is reachable exactly when step 3 is and the name, WhatsApp number and phone are all non-empty |
| Booking.DetailsIgnoreOptionalFields | src/stores/booking.ts:101-108 | e-mail and special requests do not affect whether step 4 is reachable |
| Booking.EmptyTimeBlocks | src/stores/booking.ts:91-93 | an empty or missing time never lets the wizard proceed past step 1 |
| Booking.AutoFill | src/stores/booking.ts:208-219 | each profile field that is truthy overwrites its client field (the phone fills both phone and WhatsApp); every other field is kept |
| Booking.AutoFillIdempotent | src/stores/booking.ts:208-219 | filling from the same profile twice gives the same client info as once |
| Booking.AutoFillEmptyProfile | src/stores/booking.ts:208-219 | a profile with no truthy field leaves the client info unchanged |
| Booking.SlotLabel | src/stores/booking.ts:174-176 | a slot label is the prefix of the slot time, at most 5 characters long, and exactly 5 long when the time is at least that long |
| Booking.SlotLabelOfTime | src/stores/booking.ts:174-176 | a `HH:mm:ss` slot is labelled `HH:mm` |
| Booking.AvailableSlots | src/stores/booking.ts:172-178 | at most one label per row, each at most 5 characters; no labels when no row is available |
| Booking.AvailableSlotsAppend | src/stores/booking.ts:172-178 | the available slots of concatenated rows are the slots of each part, in order |
| Booking.AvailableSlotsMembers | src/stores/booking.ts:172-178 | a label is offered exactly when some available row has that label; there are never more labels than rows |
| Booking.AllAvailable | src/stores/booking.ts:172-178 | when every row is available, one label is offered per row |
| Booking.EndMinute | src/stores/booking.ts:260-265 | the end minute lies within the day and is the start plus the duration, modulo 1440 |
| Booking.EndMinuteSplits | src/stores/booking.ts:262-265 | the end minute's hour and minute give back the start plus the duration, modulo a day |
| Booking.ParseClock | src/stores/booking.ts:261-263 | a time without a colon has no minutes and gives an invalid Date |
| Booking.ParseClockOfParts | src/stores/booking.ts:261-263 | the hour is `Number` of the text before the colon and the minute `Number` of the text after it, truncated to integers; NaN in either makes the Date invalid |
| Booking.ParseClockOfDigits | src/stores/booking.ts:261-263 | digit strings around the colon read as their values, an empty minutes part as 0 |
| Booking.PaddedClock | src/stores/booking.ts:261-263 | leading whitespace before the hour is ignored (` 9:30` is 09:30) |
| Booking.SignedClock | src/stores/booking.ts:261-263 | a `+` or `-` before the hour is accepted (`-1:00` is an hour before midnight of the selected day) |
| Booking.FractionalClock | src/stores/booking.ts:261-263 | a fractional hour is truncated (`9.5:00` is 09:00) |
| Booking.ExponentClock | src/stores/booking.ts:261-263 | an exponent scales the hour (`1e1:00` is 10:00) |
| Booking.ClockRoundTrip | src/stores/booking.ts:260-265 | a formatted `HH:mm` time parses back to its hour and minute |
| Booking.FormatClock | src/stores/booking.ts:264-265 | `format(end, 'HH:mm')` is always 5 characters with the colon at index 2 |
| Booking.EndTimeReadsBack | src/stores/booking.ts:260-265 | the end time written to the appointment parses back to the start plus the duration, modulo one day |
| Booking.FormatDate | src/stores/booking.ts:270 | `format(date, 'yyyy-MM-dd')` splits at `-` into three digit strings reading as the year, month and day; ten characters for a four-digit year |
| JsNumber.ExponentMark | src/stores/booking.ts:261 | the index of an `e` or `E` in the literal, and none exactly when there is no such letter |
| JsNumber.Mantissa | src/stores/booking.ts:261 | the digits of a decimal mantissa with the position of its point, which lies within the digits |
| JsNumber.Negate | src/stores/booking.ts:261 | a leading `-` negates a value and keeps NaN |
| JsNumber.TrimmedNumber | src/stores/booking.ts:261 | a literal without surrounding whitespace is read as it is |
| JsNumber.NumberAfterWhitespace | src/stores/booking.ts:261 | leading whitespace does not change the value |
| JsNumber.PaddedDigits | src/stores/booking.ts:261 | digits after whitespace read as their value |
| JsNumber.NumberOfDigits | src/stores/booking.ts:261 | a non-empty digit string reads as its decimal value |
| JsNumber.NumberOfDigitString | src/stores/booking.ts:261 | any digit string reads as its value, the empty string as 0 |
| JsNumber.PlusDigits | src/stores/booking.ts:261 | `+` before digits keeps their value |
| JsNumber.MinusDigits | src/stores/booking.ts:261 | `-` before digits negates their value |
| JsNumber.FractionTruncated | src/stores/booking.ts:261-263 | a decimal fraction is dropped when `setHours` truncates |
| JsNumber.ExponentScales | src/stores/booking.ts:261-263 | an exponent `eK` multiplies the digits by 10^K |
| JsNumber.NumberIgnoresPadding | src/stores/booking.ts:261 | trimming the text first does not change what `Number` reads |
| JsNumber.PlainNumber | src/stores/booking.ts:261 | a trimmed literal without a sign or radix prefix is read as a decimal literal |
| JsNumber.SignedNumber | src/stores/booking.ts:261 | a sign before a literal applies to the decimal literal after it |
| JsNumber.LeadingSign | src/stores/booking.ts:261 | `-` and `+` before the same text are both NaN or give opposite values |
| JsNumber.DecimalOfDigits | src/stores/booking.ts:261 | a digit string is a decimal literal whose value is its digits' value |
| JsNumber.DecimalOfFraction | src/stores/booking.ts:261-263 | the whole part of `a.b` is its truncated value |
| JsNumber.DecimalOfExponent | src/stores/booking.ts:261-263 | `aeK` is `a` times 10^K |
| JsNumber.HexLiteral | src/stores/booking.ts:261 | a `0x` literal reads as its hexadecimal value |
| JsNumber.MantissaRejects | src/stores/booking.ts:261 | a character other than a digit or a point makes the mantissa invalid |
| JsNumber.NoDecimalAfterPrefix | src/stores/booking.ts:261 | text starting `0x` is never a decimal literal |
| JsNumber.SignedHexLiteral | src/stores/booking.ts:261 | a sign before a `0x` literal makes it NaN, so the Date is invalid |
| Booking.AddonRecords | src/stores/booking.ts:295-300 | no add-on rows are inserted for an empty selection; otherwise one row per add-on, in order, for this appointment, with quantity 1 |
| Booking.InspirationUploadPath | src/stores/booking.ts:240 | the upload path lies under `inspiration-images/` and ends with `_` and the file name |
| Booking.BookingStore.constructor | src/stores/booking.ts:42-64 | the store starts in its initial state at step 1 |
| Booking.BookingStore.InitializeFromParams | src/stores/booking.ts:113-117 | sets the service and add-ons, returns to step 1, and changes no other field |
| Booking.BookingStore.SetDateTime | src/stores/booking.ts:185-188 | stores the date and time; step 2 becomes reachable exactly when the time is non-empty |
| Booking.BookingStore.SetClientInfo | src/stores/booking.ts:191-193 | replaces the client info |
| Booking.BookingStore.SetInspirationImage | src/stores/booking.ts:196-198 | replaces the inspiration image |
| Booking.BookingStore.SkipAuthFlow | src/stores/booking.ts:222-224 | marks the sign-in step as skipped |
| Booking.BookingStore.GoToStep | src/stores/booking.ts:201-205 | moves to a step in 1..5 and ignores any other step, so the step stays in 1..5 |
| Booking.BookingStore.AutoFillFromProfile | src/stores/booking.ts:208-219 | the new client info is the auto-fill of the old one from the profile |
| Booking.BookingStore.ResetBooking | src/stores/booking.ts:319-321 | returns every field to its initial value |
| Booking.BookingStore.QueryAvailableSlots | src/stores/booking.ts:141-182 | without a date: the "no date" error and no query; the technician from settings is looked up only when none is cached, and a failed lookup is the error; otherwise the RPC gets the formatted date, the technician, the duration and 30-minute slots, and the result is the labels of the available rows or the RPC's error |
| Booking.BookingStore.CreateBooking | src/stores/booking.ts:227-316 | fails with "missing information" unless step 4 is reachable; uploads the image first, if there is one, and fails with its error; fails with "Invalid time value" when the time has no minutes part or either part reads as NaN; otherwise builds the appointment with the computed duration, price and end time, the client fields, `null` for a missing or empty profile id and for missing optional fields, and status `pending` |
| Booking.StepStaysInRange | src/stores/booking.ts:201-205 | after any sequence of `goToStep` calls from step 1 the step is in 1..5 and is the last valid step requested |
| Booking.LastValidStepSnoc | src/stores/booking.ts:201-205 | one more request moves to that step when it is valid and otherwise keeps the step |
| Business.ActiveOnDayAppend | src/stores/business.ts:24-32 | grouping schedules by day distributes over concatenation |
| Business.ActiveOnDayMembers | src/stores/business.ts:24-32 | a day's bucket holds exactly the schedules that are active on that day |
| Business.ActiveOnDay | src/stores/business.ts:28 | a day's bucket holds only active rows of that day, no more rows than the list, and the whole list when every row is one |
| Business.FirstActiveOn | src/stores/business.ts:52 | `find` returns an active row of the day from the list, and nothing exactly when no row is one |
| Business.AnyActiveOnExists | src/stores/business.ts:35-37 | `some` holds exactly when some row is an active row of the day |
| Business.EnabledIffBucket | src/stores/business.ts:35-37 | a day is enabled exactly when its bucket is non-empty |
| Business.DefaultHoursIsFirst | src/stores/business.ts:51-53 | the default hours are the first schedule in the day's bucket, and none when the day is not enabled |
| Business.DefaultHoursNoEarlier | src/stores/business.ts:51-53 | if some schedule is active on a day, the default hours are one at or before it, and no earlier schedule is active that day |
| Business.DefaultSortIsPreorder | src/stores/business.ts:47 | the default `sort` comparison on day numbers is a total preorder |
| Business.DefaultSortNumericOnWeekdays | src/stores/business.ts:47 | on single-digit days the default comparison is numeric order |
| Business.DefaultSortNotNumeric | src/stores/business.ts:47 | the default comparison puts 10 before 9 |
| Business.SortedWeekdaysAscending | src/stores/business.ts:40-48 | enabled weekdays in 0..6, once sorted, are in ascending numeric order |
| Business.SettingsPatch | src/stores/business.ts:143-153 | the patch holds a key exactly for each option that was given, with the given value, and no other key |
| Business.GetterDefaults | src/stores/business.ts:56-58 | missing settings read as accepting bookings, 30-minute slots and 30 days of advance booking |
| Business.GettersKeepFalsy | src/stores/business.ts:56-58 | `false` and `0` stored in the settings are read as themselves, not replaced by the defaults |
| Business.SavedSettingsReadBack | src/stores/business.ts:138-156 | after a save, each getter reads the saved value for a given option and the old value otherwise |
| Business.BusinessStore.constructor | src/stores/business.ts:17-20 | the store starts with no settings and no schedules |
| Business.BusinessStore.AvailabilityByDay | src/stores/business.ts:24-32 | the map has exactly the keys 0..6, each holding the schedules active on that day |
| Business.BusinessStore.EnabledDays | src/stores/business.ts:40-48 | each day with an active schedule appears exactly once, and the list is sorted by the default comparison |
| Business.BusinessStore.IsDayEnabled | src/stores/business.ts:35-37 | a day is enabled exactly when some schedule row is active on it |
| Business.BusinessStore.GetDefaultHoursForDay | src/stores/business.ts:51-53 | null exactly when the day is not enabled; otherwise an active row of the day, the first of its bucket |
| Business.BusinessStore.IsAcceptingBookings | src/stores/business.ts:56 | the stored flag when there is one, `true` otherwise |
| Business.BusinessStore.SlotDuration | src/stores/business.ts:57 | the stored slot duration when there is one, 30 otherwise |
| Business.BusinessStore.AdvanceBookingDays | src/stores/business.ts:58 | the stored booking horizon when there is one, 30 otherwise |
| Business.BusinessStore.FetchBusinessSettings | src/stores/business.ts:63-79 | any error other than "no rows" (PGRST116) fails and keeps the settings; otherwise the fetched row, or none, is stored and returned |
| Business.BusinessStore.FetchAvailabilitySchedules | src/stores/business.ts:82-99 | an error fails and keeps the schedules; otherwise the fetched list, or `[]`, is stored and returned |
| Business.BusinessStore.SaveSettingsPatch | src/stores/business.ts:138-156 | the row sent to `updateSettings` is the settings patch of the given options |
| Business.EnabledMatchesGrouping | src/stores/business.ts:24-37 | `isDayEnabled` agrees with the day's bucket of `availabilityByDay` |
| Calendar.ParseStatus | src/composables/useAppointmentCalendar.ts:8-14 | names a status exactly when the string is one of the six status names |
| Calendar.ParseStatusName | src/composables/useAppointmentCalendar.ts:8-14 | every status's database spelling reads back as that status |
| Calendar.StatusInfo | src/composables/useAppointmentCalendar.ts:59-111 | a status name gets that status's styling; any other string gets the styling of `pending` |
| Calendar.ConfigOfInjective | src/composables/useAppointmentCalendar.ts:59-109 | no two statuses share the same styling |
| Calendar.ServiceNameOf | src/composables/useAppointmentCalendar.ts:129 | the service name, else the bundle name, else "Unknown Service"; never empty |
| Calendar.ClientNameOf | src/composables/useAppointmentCalendar.ts:130 | the client name, else "Walk-in Client"; never empty |
| Calendar.TransformToCalendarEvent | src/composables/useAppointmentCalendar.ts:116-150 | no event exactly when the id, date, start or end is missing; otherwise the event's id, times `dateTtime`, text `client - service`, resource, client name and status (default `pending`); the appointment number and client phone are the column or `''`, and the service, bundle and technician names and the quoted and final prices are the column when truthy and undefined otherwise (so a price of 0 is dropped) |
| Calendar.EventStartReadsBack | src/composables/useAppointmentCalendar.ts:125-127 | the event's start and end split at `T` give back the appointment's date and times |
| Calendar.MissingStatusIsPending | src/composables/useAppointmentCalendar.ts:142 | an appointment without a status is styled as pending |
| Calendar.EventStatusStyling | src/composables/useAppointmentCalendar.ts:142 | an appointment with a known status is styled as that status |
| Calendar.TransformAll | src/composables/useAppointmentCalendar.ts:155-168 | there are never more events than appointments |
| Calendar.TransformAllAppend | src/composables/useAppointmentCalendar.ts:159-163 | transforming concatenated lists gives the concatenated events |
| Calendar.TransformAllMembers | src/composables/useAppointmentCalendar.ts:159-163 | an event is shown exactly when some appointment transforms to it |
| Calendar.TransformAllComplete | src/composables/useAppointmentCalendar.ts:159-163 | when every appointment is complete, there is one event per appointment |
| Calendar.TransformAllResource | src/composables/useAppointmentCalendar.ts:159-163 | every event is placed on the given technician's resource |
| Calendar.ParseNat | src/composables/useAppointmentCalendar.ts:180-193 | a reading of a label part succeeds exactly on a non-empty string of digits |
| Calendar.ParseIntOfString | src/composables/useAppointmentCalendar.ts:180-193 | a printed integer reads back as itself |
| Calendar.MinutesLabelReadsBack | src/composables/useAppointmentCalendar.ts:185-187 | a duration under an hour, printed as `Nmin`, reads back as itself |
| Calendar.HoursLabelReadsBack | src/composables/useAppointmentCalendar.ts:189-192 | a whole number of hours, printed as `Nh`, reads back as itself |
| Calendar.HoursMinutesLabelReadsBack | src/composables/useAppointmentCalendar.ts:189-192 | hours and minutes, printed as `Nh Mmin`, read back as the duration |
| Calendar.HoursMinutesReadBack | src/composables/useAppointmentCalendar.ts:192 | a label `<h>h <r>min` reads back as h hours and r minutes |
| Calendar.FormatDuration | src/composables/useAppointmentCalendar.ts:180-193 | under an hour the label ends in `min`; whole hours end in `h`; otherwise hours, a space and minutes ending in `min` |
| Calendar.FormatDurationRoundTrip | src/composables/useAppointmentCalendar.ts:180-193 | every duration label reads back as the duration it prints |
| Calendar.FormatDurationInjective | src/composables/useAppointmentCalendar.ts:180-193 | two different durations never get the same label |
| Combobox.FirstMatchAppend | src/components/ui/enhanced-combobox/useEnhancedCombobox.ts:135-153 | the first matching chain of a concatenation is the first chain of the first part that has one |
| Combobox.FirstMatchSpec | src/components/ui/enhanced-combobox/useEnhancedCombobox.ts:135-153 | no chain is found exactly when no chain ends at the target; otherwise it is the earliest chain that does |
| Combobox.FindPathIsFirstMatch | src/components/ui/enhanced-combobox/useEnhancedCombobox.ts:135-153 | the depth-first search returns the first chain, in pre-order, that ends at the target |
| Combobox.FindPathNodeIsFirstMatch | src/components/ui/enhanced-combobox/useEnhancedCombobox.ts:141-151 | the same holds for the search below one option |
| Combobox.ChainsAreChains | src/components/ui/enhanced-combobox/useEnhancedCombobox.ts:135-153 | every chain enumerated goes from a root option down through loaded children |
| Combobox.NodeChainsAreChains | src/components/ui/enhanced-combobox/useEnhancedCombobox.ts:141-150 | every chain enumerated below an option starts at that option and goes through loaded children |
| Combobox.FindOptionPathCorrect | src/components/ui/enhanced-combobox/useEnhancedCombobox.ts:135-153 | `findOptionPath` returns `[]` exactly when no option has the target value; otherwise a chain from a root down to an option with that value, and the first such chain |
| Combobox.FindPath | src/components/ui/enhanced-combobox/useEnhancedCombobox.ts:135-153 | a non-empty result extends the given path by one option of the level and ends at an option with the target value |
| Combobox.FindPathNode | src/components/ui/enhanced-combobox/useEnhancedCombobox.ts:140-150 | a non-empty result starts with the path followed by the option and ends at the target; an option with the target value returns exactly that prefix |
| Combobox.OptionsAt | src/components/ui/enhanced-combobox/useEnhancedCombobox.ts:155-167 | the empty path shows the root level; a non-empty level is the loaded children of an option, with the last path id, of the level before |
| Combobox.FilterByLabel | src/components/ui/enhanced-combobox/useEnhancedCombobox.ts:169-177 | keeps a sub-sequence of the options: everything for an empty search, otherwise only options whose lower-cased label contains the lower-cased search |
| Combobox.SomeLabelEquals | src/components/ui/enhanced-combobox/useEnhancedCombobox.ts:62 | holds exactly when some option's label equals the search, ignoring case |
| Combobox.CanCreateNew | src/components/ui/enhanced-combobox/useEnhancedCombobox.ts:180-187 | the computed condition holds exactly when creation is allowed, the trimmed search is non-empty and no option's label equals the trimmed search, ignoring case |
| Combobox.KeyboardCanCreateNew | src/components/ui/enhanced-combobox/useEnhancedCombobox.ts:59-62 | the key handler's condition holds exactly when creation is allowed, the trimmed search is non-empty and no option's label equals the untrimmed search, ignoring case |
| Combobox.ArrowDown | src/components/ui/enhanced-combobox/useEnhancedCombobox.ts:66-69 | `(i + 1) % total`: NaN when there are no items or when the highlight is NaN, otherwise the next index with wrap-around |
| Combobox.ArrowUp | src/components/ui/enhanced-combobox/useEnhancedCombobox.ts:71-74 | `(i - 1 + total) % total`: NaN when there are no items or when the highlight is NaN, otherwise the previous index with wrap-around |
| Combobox.UpdateOptions | src/components/ui/enhanced-combobox/useEnhancedCombobox.ts:202-212 | keeps the number of root options and each option's id and value; the option with the id gets the loaded children and `hasChildren` set to whether there are any |
| Combobox.AppendUnder | src/components/ui/enhanced-combobox/useEnhancedCombobox.ts:241-255 | keeps the number of root options and each option's id and value; the parent with the id gets its children followed by the new option and `hasChildren` set |
| Combobox.MapByIdRootsAll | src/components/ui/enhanced-combobox/useEnhancedCombobox.ts:202-212 | each root option of the updated level is the update of the root option at the same position |
| Combobox.FirstLabelEqual | src/components/ui/enhanced-combobox/useEnhancedCombobox.ts:115-117 | `find` returns an option of the level whose label equals the search ignoring case, and nothing exactly when there is none |
| Combobox.FindById | src/components/ui/enhanced-combobox/useEnhancedCombobox.ts:158 | finds an option of the level with the id, or reports that there is none |
| Combobox.OptionsAtStaysEmpty | src/components/ui/enhanced-combobox/useEnhancedCombobox.ts:155-167 | once a level of the path is empty, every deeper level is empty too |
| Combobox.OptionsAtEnter | src/components/ui/enhanced-combobox/useEnhancedCombobox.ts:155-167 | entering an option shows its loaded children, or nothing when it is missing or not loaded |
| Combobox.FilterByLabelSpec | src/components/ui/enhanced-combobox/useEnhancedCombobox.ts:169-177 | an empty search keeps all options; otherwise an option is kept exactly when its label contains the search, ignoring case |
| Combobox.FilterByLabelAppend | src/components/ui/enhanced-combobox/useEnhancedCombobox.ts:169-177 | filtering distributes over concatenation, so the kept options stay in their order |
| Combobox.CreateNeedsSearch | src/components/ui/enhanced-combobox/useEnhancedCombobox.ts:59-63 | creating is offered only when creation is allowed and the trimmed search is non-empty |
| Combobox.CreateConditionsAgreeWhenTrimmed | src/components/ui/enhanced-combobox/useEnhancedCombobox.ts:180-187 | the two create conditions agree on a search without surrounding whitespace |
| Combobox.CreateConditionsDisagree | src/components/ui/enhanced-combobox/useEnhancedCombobox.ts:59-63 | there are a search and a level on which the computed condition refuses a new option and the keyboard offers one, and a search and a level where it is the other way round |
| Combobox.PaddedSearchAmongPlain | src/components/ui/enhanced-combobox/useEnhancedCombobox.ts:59-63 | the search `" a"` beside an option `a`: the computed condition refuses a new option (trimmed, it matches), the keyboard offers one (untrimmed, it does not) |
| Combobox.PaddedSearchAmongPadded | src/components/ui/enhanced-combobox/useEnhancedCombobox.ts:180-187 | the search `" a"` beside an option `" a"`: the computed condition offers a new option, the keyboard refuses one |
| Combobox.JsRem | src/components/ui/enhanced-combobox/useEnhancedCombobox.ts:66-74 | `%` by 0 is NaN; on non-negative operands it is the ordinary remainder |
| Combobox.ArrowsStayInRange | src/components/ui/enhanced-combobox/useEnhancedCombobox.ts:66-74 | the arrow keys keep a valid highlight within the items |
| Combobox.ArrowsInverse | src/components/ui/enhanced-combobox/useEnhancedCombobox.ts:66-74 | ArrowUp undoes ArrowDown and ArrowDown undoes ArrowUp |
| Combobox.ArrowsWrap | src/components/ui/enhanced-combobox/useEnhancedCombobox.ts:66-74 | ArrowDown on the last item goes to the first, and ArrowUp on the first item goes to the last |
| Combobox.ArrowsOnEmpty | src/components/ui/enhanced-combobox/useEnhancedCombobox.ts:66-74 | with no items the highlight becomes NaN, and NaN stays NaN |
| Combobox.ArrowsKeepHighlightOk | src/components/ui/enhanced-combobox/useEnhancedCombobox.ts:66-74 | the arrow keys never produce a negative highlight |
| Combobox.ApplyEdit | src/components/ui/enhanced-combobox/useEnhancedCombobox.ts:202-212 | an edit keeps the option's id, label and value and leaves its children loaded |
| Combobox.MapById | src/components/ui/enhanced-combobox/useEnhancedCombobox.ts:202-212 | updating the tree keeps the number of options at each level |
| Combobox.MapNode | src/components/ui/enhanced-combobox/useEnhancedCombobox.ts:202-212 | updating below an option keeps its id, label and value |
| Combobox.MapByIdIndex | src/components/ui/enhanced-combobox/useEnhancedCombobox.ts:202-212 | each option of the updated level is the update of the option at the same position |
| Combobox.MapByIdAbsent | src/components/ui/enhanced-combobox/useEnhancedCombobox.ts:202-212 | updating an id that is nowhere in the tree changes nothing |
| Combobox.MapNodeAbsent | src/components/ui/enhanced-combobox/useEnhancedCombobox.ts:202-212 | updating below an option without that id changes nothing |
| Combobox.MapByIdRoots | src/components/ui/enhanced-combobox/useEnhancedCombobox.ts:202-212 | the option with the id gets the edit (for loaded children, `children` replaced and `hasChildren` set to whether there are any); an unloaded option without the id is unchanged; every option keeps its id, label and value, and every option without the id keeps its `hasChildren` |
| Combobox.FindByIdAfterMap | src/components/ui/enhanced-combobox/useEnhancedCombobox.ts:202-212 | looking up an option after an update finds the update of what was found before |
| Combobox.StepAfterMap | src/components/ui/enhanced-combobox/useEnhancedCombobox.ts:155-167 | entering another option commutes with the update |
| Combobox.OptionsAtAfterMap | src/components/ui/enhanced-combobox/useEnhancedCombobox.ts:155-167 | along a path that avoids the edited id, the level shown after an update is the update of the level shown before |
| Combobox.LoadedChildrenShown | src/components/ui/enhanced-combobox/useEnhancedCombobox.ts:191-225 | after children are loaded for an option reachable on the path, entering it shows exactly the loaded children |
| Combobox.CreatedOptionShown | src/components/ui/enhanced-combobox/useEnhancedCombobox.ts:241-255 | an option created under the current parent appears at the end of the current level |
| Combobox.SliceTo | src/components/ui/enhanced-combobox/useEnhancedCombobox.ts:293-301 | slicing the path always gives a prefix of it |
| Combobox.NavigateSpec | src/components/ui/enhanced-combobox/useEnhancedCombobox.ts:274-285 | at the depth limit, or on an option without children, nothing changes; otherwise the option is appended to the path, the search is cleared and the highlight is 0, and with children already loaded (or no loader) the tree is unchanged and the error cleared |
| Combobox.NavigateShowsLoadedChildren | src/components/ui/enhanced-combobox/useEnhancedCombobox.ts:274-285 | navigating into an unloaded option whose children load shows exactly those children, with no error |
| Combobox.BackSpec | src/components/ui/enhanced-combobox/useEnhancedCombobox.ts:287-291 | going back drops the last path element (or keeps the empty path), clears the search and the error and keeps the tree |
| Combobox.BreadcrumbSpec | src/components/ui/enhanced-combobox/useEnhancedCombobox.ts:293-301 | breadcrumb -1 goes to the root; index i keeps the first i+1 path elements; the search is cleared and the tree kept |
| Combobox.SelectSpec | src/components/ui/enhanced-combobox/useEnhancedCombobox.ts:266-272 | selecting reports the option's value with the full path to it, then resets path, search and error and keeps the tree |
| Combobox.CreateSpec | src/components/ui/enhanced-combobox/useEnhancedCombobox.ts:227-264 | without a create handler or permission nothing changes; a created option is appended at the root or under the current parent and the search and error are cleared; a failure keeps the tree and sets an error; the path never changes |
| Combobox.CreateShowsNewOption | src/components/ui/enhanced-combobox/useEnhancedCombobox.ts:227-264 | after a creation under a parent, the current level is the old level followed by the new option |
| Combobox.CreateAtRootShowsNewOption | src/components/ui/enhanced-combobox/useEnhancedCombobox.ts:227-264 | after a creation at the root, the root level is the old one followed by the new option |
| Combobox.Settle | src/components/ui/enhanced-combobox/useEnhancedCombobox.ts:52-54 | only the highlight may differ from the new state; it is reset to 0 when the path is assigned or the search changed, and otherwise nothing changes |
| Combobox.LoadChildrenStep | src/components/ui/enhanced-combobox/useEnhancedCombobox.ts:191-225 | path, search and highlight are kept; without a loader or with children already loaded nothing changes; otherwise the error is cleared exactly when the load succeeds, a success inserts the children into the tree and a failure keeps the tree |
| Combobox.NavigateStep | src/components/ui/enhanced-combobox/useEnhancedCombobox.ts:274-285 | the path is kept or extended by the option, and it is extended exactly when it is below the depth limit and the option has or may have children |
| Combobox.CreateStep | src/components/ui/enhanced-combobox/useEnhancedCombobox.ts:227-264 | the path never changes; a failed or missing creation keeps the tree and the search; the tree changes only with a create handler, permission and a successful creation |
| Combobox.SelectStep | src/components/ui/enhanced-combobox/useEnhancedCombobox.ts:266-272 | selecting returns to the initial state over the same tree |
| Combobox.BackStep | src/components/ui/enhanced-combobox/useEnhancedCombobox.ts:287-291 | the path loses its last element (the empty path stays empty) and stays a prefix; the highlight is 0 and the tree is kept |
| Combobox.BreadcrumbStep | src/components/ui/enhanced-combobox/useEnhancedCombobox.ts:293-301 | the new path is a prefix of the old one; the error is cleared, the highlight is 0 and the tree is kept |
| Combobox.RetryStep | src/components/ui/enhanced-combobox/useEnhancedCombobox.ts:303-311 | path, search and highlight are kept; when the last path option is not an unloaded option with children only the error is cleared |
| Combobox.ClearAndRetryStep | src/components/ui/enhanced-combobox/useEnhancedCombobox.ts:313-317 | returns to the initial state over the same tree |
| Combobox.ArrowRightStep | src/components/ui/enhanced-combobox/useEnhancedCombobox.ts:76-84 | the state changes only when the highlight is on a listed option that has or may have children |
| Combobox.EnterStep | src/components/ui/enhanced-combobox/useEnhancedCombobox.ts:93-100 | on a listed option it selects (back to the initial state); the state changes only then or when the keyboard create condition holds |
| Combobox.EscapeStep | src/components/ui/enhanced-combobox/useEnhancedCombobox.ts:102-109 | a non-empty search is cleared with the path kept; with an empty search the path loses its last element; the tree is kept |
| Combobox.SlashStep | src/components/ui/enhanced-combobox/useEnhancedCombobox.ts:111-122 | the state changes only with a non-empty search and neither Ctrl nor Meta; the path is kept or extended by a listed option whose label equals the search |
| Combobox.KeyDownStep | src/components/ui/enhanced-combobox/useEnhancedCombobox.ts:57-124 | an unhandled key changes nothing; the up and down arrows change only the highlight; the left arrow drops the last path element and keeps the tree |
| Combobox.ArrowRightKeepsValid | src/components/ui/enhanced-combobox/useEnhancedCombobox.ts:76-84 | the right arrow keeps the state valid |
| Combobox.SlashKeepsValid | src/components/ui/enhanced-combobox/useEnhancedCombobox.ts:111-122 | the `/` key keeps the state valid |
| Combobox.HandlersKeepValid | src/components/ui/enhanced-combobox/useEnhancedCombobox.ts:191-317 | every handler keeps the path within the depth limit and the highlight non-negative |
| Combobox.KeyDownKeepsValid | src/components/ui/enhanced-combobox/useEnhancedCombobox.ts:57-124 | every key press keeps the path within the depth limit and the highlight non-negative |
| Combobox.InitialValid | src/components/ui/enhanced-combobox/useEnhancedCombobox.ts:18-26 | the initial state is valid |
| Combobox.Combobox.constructor | src/components/ui/enhanced-combobox/useEnhancedCombobox.ts:18-26 | the composable starts at the root with an empty search, no error and highlight 0 |
| Combobox.Combobox.GetCurrentOptions | src/components/ui/enhanced-combobox/useEnhancedCombobox.ts:155-167 | the loop that walks the path returns the level the path leads to |
| Combobox.Combobox.GetFilteredOptions | src/components/ui/enhanced-combobox/useEnhancedCombobox.ts:169-177 | returns the current level filtered by the search |
| Combobox.Combobox.HandleLoadChildren | src/components/ui/enhanced-combobox/useEnhancedCombobox.ts:191-225 | performs the load-children transition |
| Combobox.Combobox.HandleCreateOption | src/components/ui/enhanced-combobox/useEnhancedCombobox.ts:227-264 | performs the create transition |
| Combobox.Combobox.HandleSelect | src/components/ui/enhanced-combobox/useEnhancedCombobox.ts:266-272 | reports the selection and performs the select transition |
| Combobox.Combobox.HandleNavigateToChildren | src/components/ui/enhanced-combobox/useEnhancedCombobox.ts:274-285 | performs the navigate transition |
| Combobox.Combobox.HandleBack | src/components/ui/enhanced-combobox/useEnhancedCombobox.ts:287-291 | performs the back transition |
| Combobox.Combobox.HandleBreadcrumbNavigate | src/components/ui/enhanced-combobox/useEnhancedCombobox.ts:293-301 | performs the breadcrumb transition |
| Combobox.Combobox.HandleRetry | src/components/ui/enhanced-combobox/useEnhancedCombobox.ts:303-311 | performs the retry transition |
| Combobox.Combobox.HandleClearAndRetry | src/components/ui/enhanced-combobox/useEnhancedCombobox.ts:313-317 | performs the clear-and-retry transition |
| Combobox.Combobox.PressArrowDown | src/components/ui/enhanced-combobox/useEnhancedCombobox.ts:66-69 | moves the highlight down over the filtered options plus the "create" row, and changes nothing else |
| Combobox.Combobox.PressArrowUp | src/components/ui/enhanced-combobox/useEnhancedCombobox.ts:71-74 | moves the highlight up over the filtered options plus the "create" row, and changes nothing else |
| Combobox.Combobox.PressArrowRight | src/components/ui/enhanced-combobox/useEnhancedCombobox.ts:76-84 | performs the ArrowRight transition |
| Combobox.Combobox.PressEnter | src/components/ui/enhanced-combobox/useEnhancedCombobox.ts:93-100 | reports what Enter selects and performs the Enter transition |
| Combobox.Combobox.PressEscape | src/components/ui/enhanced-combobox/useEnhancedCombobox.ts:102-109 | performs the Escape transition |
| Combobox.Combobox.PressSlash | src/components/ui/enhanced-combobox/useEnhancedCombobox.ts:111-122 | performs the slash transition |
| Combobox.Combobox.OnKeyDown | src/components/ui/enhanced-combobox/useEnhancedCombobox.ts:57-124 | performs the key's transition, reports its selection and keeps the state valid |
| Services.Categorized | src/stores/services.ts:20-27 | one category per category, in order, keeping each id and name |
| Services.CategorizedMembers | src/stores/services.ts:20-27 | a category lists exactly the services filed under its id |
| Services.CategorizedAppend | src/stores/services.ts:20-27 | grouping keeps the services' order |
| Services.UnfiledServiceHidden | src/stores/services.ts:20-27 | a service filed under no known category appears in no group |
| Services.FetchedServicesRegroup | src/stores/services.ts:31-47 | regrouping the flattened fetch result gives back the fetched categories |
| Services.ImageOrderIsPreorder | src/stores/services.ts:80-82 | the image order by `display_order` is a total preorder |
| Services.SortImages | src/stores/services.ts:80-82 | the images come out sorted by `display_order`, as a permutation of the input |
| Services.SortImagesStable | src/stores/services.ts:80-82 | images with equal `display_order` keep their relative order |
| Services.ServicesWithImages | src/stores/services.ts:70-87 | there are never more categories out than in |
| Services.ActiveIffNonEmpty | src/stores/services.ts:73-75 | a category keeps some service exactly when it has an active one |
| Services.ServicesWithImagesSpec | src/stores/services.ts:70-87 | the result is the categories with an active service, each with its inactive services dropped and its images sorted |
| Services.ServicesWithImagesShape | src/stores/services.ts:70-87 | every category shown has a service; every service shown is active and has sorted images |
| Services.ShapedCategory | src/stores/services.ts:70-87 | a category with an active service keeps one; every service it keeps is active and has its images sorted |
| Services.ServiceDetail | src/stores/services.ts:168-202 | an error is passed on; otherwise the service is unchanged except that its images are sorted by `display_order`, as a permutation |
| Services.CreateOrUpdateService | src/stores/services.ts:133-139 | updates exactly when the payload has a truthy id, and sends the payload unchanged |
| Services.CreateOrUpdateServiceProducts | src/stores/services.ts:140-146 | upserts exactly when some row has a truthy id, and sends the rows unchanged |
| Services.MergeFetched | src/stores/services.ts:159-160 | an empty cache becomes the fetched service; otherwise each cached service with the id is replaced and every other one kept |
| Services.MergeFetchedCaches | src/stores/services.ts:159-160 | after the merge, looking up the id finds the fetched service |
| Services.MergeFetchedUnknownId | src/stores/services.ts:159-160 | a non-empty cache without the id is left as it was |
| Services.CategorizedAllMembers | src/stores/services.ts:20-27 | every category's entry holds exactly the services whose category id is that category's id |
| Services.ServiceStore.CategorizedServices | src/stores/services.ts:20-27 | one entry per category, in order, keeping its id and name and holding exactly the services filed under its id |
| Services.ServiceStore.ServicesCount | src/stores/services.ts:28 | the number of services in the list |
| Services.ServiceStore.constructor | src/stores/services.ts:14-18 | the store starts with no categories and no services |
| Services.ServiceStore.FetchServices | src/stores/services.ts:31-47 | an error keeps the state; otherwise the services are the flattened result, the categories are the result emptied of services, and the count is the total number of services |
| Services.ServiceStore.GetServiceById | src/stores/services.ts:147-165 | on a failed fetch the cached service with the id, if any, is returned; otherwise the fetched service is merged into the cache and returned |
| Inventory.NameOrderIsPreorder | src/stores/inventory.ts:29 | ordering categories by name is a total preorder |
| Inventory.GroupedByName | src/stores/inventory.ts:21-30 | the categories with their products, sorted by name, as a permutation of the unsorted list |
| Inventory.WithProductsMembers | src/stores/inventory.ts:24-27 | a category lists exactly the products filed under its id |
| Inventory.GroupedByNameStable | src/stores/inventory.ts:29 | categories with equal names keep their relative order |
| Inventory.FetchedProductsRegroup | src/stores/inventory.ts:43-48 | regrouping the flattened fetch result gives back the fetched categories |
| Inventory.FlagOrFalse | src/stores/inventory.ts:90-91 | a missing flag is sent as `false` |
| Inventory.InsertRow | src/stores/inventory.ts:83-95 | the inserted row has no id, copies `name`, `name_tr`, `description`, `brand`, `category_id`, `product_type` and `unit_type`, defaults missing flags to `false` and stamps both timestamps with now |
| Inventory.UpdateRow | src/stores/inventory.ts:115-126 | the updated row keeps the id, copies the same seven columns as the insert, defaults missing flags to `false` and sends no timestamps |
| Inventory.CreateOrUpdateProduct | src/stores/inventory.ts:143-151 | updates exactly when the product has a truthy id, and passes the product on unchanged |
| Inventory.StockLevelOf | src/stores/inventory.ts:165 | a missing stock level is sent as `in_stock` |
| Inventory.CreateVariants | src/stores/inventory.ts:152-180 | no write for an empty list; otherwise one insert row per variant, in order, without an id, with its product id, names, SKU, quantities and cost copied, its stock level `?? 'in_stock'` and now as both timestamps |
| Inventory.UpdateVariants | src/stores/inventory.ts:181-209 | no write for an empty list; otherwise one upsert row per variant, in order, keeping its id and sending no product id, with its names, SKU, quantities and cost copied, its stock level `?? 'in_stock'` and now as the update time |
| Inventory.CreateOrUpdateVariants | src/stores/inventory.ts:210-219 | no write for an empty list; an upsert exactly when some variant has a truthy id, and then exactly the rows `UpdateVariants` builds; otherwise exactly the rows `CreateVariants` builds, none with an id |
| Inventory.VariantRowsHaveStockLevel | src/stores/inventory.ts:152-219 | whichever write is chosen, it has one row per variant, and a missing stock level is sent as `in_stock` |
| Inventory.InventoryStore.constructor | src/stores/inventory.ts:15-19 | the store starts with no products and no categories |
| Inventory.InventoryStore.CategorizedProducts | src/stores/inventory.ts:21-30 | the loop's result is the categories with their products sorted by name, one per category |
| Inventory.InventoryStore.FetchProducts | src/stores/inventory.ts:33-52 | an error keeps the state; otherwise the products are the flattened result and the categories are the result emptied of products |
| Inventory.InventoryStore.FetchProductById | src/stores/inventory.ts:53-69 | a fetched product is returned; on a failed fetch the first cached product with the id (as `find` returns it) when there is one, and the fetch error otherwise |
| Inventory.InventoryStore.CreateProduct | src/stores/inventory.ts:80-110 | sends the insert row and returns the response; the local list is not changed, because `data[0]` of the single returned row is undefined |
| Inventory.InventoryStore.UpdateProduct | src/stores/inventory.ts:111-142 | sends the update row; on success the listed product with the same id is replaced, and on an error nothing changes |
| Inventory.UpdatedProductListed | src/stores/inventory.ts:137-139 | after replacing a listed product, looking up its id finds the new one |
| Inventory.UpdatedProductUnlisted | src/stores/inventory.ts:137-139 | replacing a product that is not listed leaves the list unchanged |
| Profile.IsAuthenticated | src/stores/profile.ts:9-12 | the getter passes the auth store's flag through unchanged |
| Profile.Role | src/stores/profile.ts:19-22 | a role is present exactly when there is a profile with a role, and it is that role |
| Profile.FullName | src/stores/profile.ts:24-27 | a full name is present exactly when there is a profile with a name, and it is that name |
| Profile.FirstName | src/stores/profile.ts:29-32 | no first name without a full name; otherwise it contains no space and is either the whole name or the part before its first space |
| Profile.FirstLetters | src/stores/profile.ts:39 | one upper-cased first letter per segment, in order |
| Profile.Initials | src/stores/profile.ts:34-42 | `''` without a full name; otherwise an error exactly when some space-separated segment is empty, which is the `toUpperCase` of undefined error |
| Profile.InitialsLength | src/stores/profile.ts:34-42 | there is one initial more than the name has spaces |
| Profile.InitialsStartWithFirstName | src/stores/profile.ts:29-42 | the first initial is the upper-cased first letter of the first name |
| Profile.InitialsAreUpperCase | src/stores/profile.ts:39 | the initials are already upper case |
| Profile.EmptyNameThrows | src/stores/profile.ts:37-39 | an empty full name makes `initials` throw |
| Profile.DoubledSpaceThrows | src/stores/profile.ts:37-39 | a name with two spaces in a row makes `initials` throw |
| Storage.Avatar | src/lib/storage.ts:5-7 | the path lies under `avatars/` and ends with the file name or `avatar.jpg` |
| Storage.InspirationImage | src/lib/storage.ts:10-12 | the path lies under `inspiration-images/` and ends with the file name |
| Storage.ResultPhoto | src/lib/storage.ts:15-17 | the path lies under `result-photos/` and ends with the file name |
| Storage.ServiceGallery | src/lib/storage.ts:20-22 | the path lies under `service-gallery/` and ends with the file name |
| Storage.ProductImage | src/lib/storage.ts:25-27 | the path lies under `product-images/` and ends with the file name |
| Storage.Invoice | src/lib/storage.ts:30-32 | the path lies under `documents/invoices/` and ends with the file name |
| Storage.Receipt | src/lib/storage.ts:35-37 | the path lies under `documents/receipts/` and ends with `receipt_<number>.pdf` |
| Storage.Certificate | src/lib/storage.ts:40-42 | the path lies under `documents/certificates/` and ends with the certificate's file name |
| Storage.SystemAssetPath | src/lib/storage.ts:45-49 | the path lies under `system-assets/` and ends with the asset's path |
| Storage.DbBackup | src/lib/storage.ts:52-54 | the path lies under `backups/database/` and ends with the file name or `full_backup.sql` |
| Storage.FileBackup | src/lib/storage.ts:57-59 | the path lies under `backups/files/` and ends with the file name or `media_backup.zip` |
| Storage.ExportFile | src/lib/storage.ts:62-64 | the path lies under `backups/exports/` and ends with the file name |
| Storage.AvatarJoin | src/lib/storage.ts:5-7 | the avatar path is its segments joined with `/` |
| Storage.InspirationImageJoin | src/lib/storage.ts:10-12 | the inspiration path is its segments joined with `/` |
| Storage.ResultPhotoJoin | src/lib/storage.ts:15-17 | the result-photo path is its segments joined with `/` |
| Storage.ServiceGalleryJoin | src/lib/storage.ts:20-22 | the gallery path is its segments joined with `/` |
| Storage.ProductImageJoin | src/lib/storage.ts:25-27 | the product-image path is its segments joined with `/` |
| Storage.InvoiceJoin | src/lib/storage.ts:30-32 | the invoice path is its segments joined with `/`, with the year in decimal |
| Storage.ReceiptJoin | src/lib/storage.ts:35-37 | the receipt path is its segments joined with `/` |
| Storage.CertificateJoin | src/lib/storage.ts:40-42 | the certificate path is its segments joined with `/` |
| Storage.SystemAssetJoin | src/lib/storage.ts:45-49 | the system-asset path is its segments joined with `/` |
| Storage.DbBackupJoin | src/lib/storage.ts:52-54 | the database-backup path is its segments joined with `/` |
| Storage.FileBackupJoin | src/lib/storage.ts:57-59 | the file-backup path is its segments joined with `/` |
| Storage.ExportFileJoin | src/lib/storage.ts:62-64 | the export path is its segments joined with `/` |
| Storage.BuildIsJoin | src/lib/storage.ts:5-64 | every builder's path is its segments joined with `/` |
| Storage.PathSplitsBack | src/lib/storage.ts:5-64 | when no argument contains `/`, splitting a path at `/` gives back its segments |
| Storage.BuildInjective | src/lib/storage.ts:5-64 | when no argument contains `/`, two requests with the same path have the same segments |
| Persistence.Get | src/stores/persistanceHelpers.ts:28 | a property is found exactly when some field has the key, and its value is that of the last such field |
| Persistence.Replacer | src/stores/persistanceHelpers.ts:8-17 | the replacer never returns a date: a date becomes an object whose `__type` is `Date` and whose `iso` is the date's ISO string, and any other value is passed through |
| Persistence.SerializeProperty | src/stores/persistanceHelpers.ts:8-17 | the value written for a property is its `toJSON` result, never a date |
| Persistence.Serialize | src/stores/persistanceHelpers.ts:7-18 | the written tree holds no date, and a tree without dates is written unchanged |
| Persistence.ReplacerNeverFires | src/stores/persistanceHelpers.ts:10-15 | the replacer never changes the value it is handed, because `toJSON` has already turned dates into strings |
| Persistence.Reviver | src/stores/persistanceHelpers.ts:26-31 | a value that fails the tag test is returned as is; one that passes becomes the date named by its non-empty `iso` string |
| Persistence.Deserialize | src/stores/persistanceHelpers.ts:25-33 | reading back keeps the shape of the tree: an array stays an array of the same length, an object either becomes a date or stays an object with the same keys in order, and a scalar is unchanged |
| Persistence.DeserializeUntagged | src/stores/persistanceHelpers.ts:25-33 | a tree with no date tag is read back unchanged |
| Persistence.ReviverChangesOnlyTags | src/stores/persistanceHelpers.ts:28-29 | the reviver changes a value exactly when it is a date tag with a non-empty `iso`, into that date |
| Persistence.EmptyIsoKept | src/stores/persistanceHelpers.ts:28 | a tag whose `iso` is empty stays an object |
| Persistence.TagRevives | src/stores/persistanceHelpers.ts:28-29 | a tag with a non-empty `iso` is read back as that date |
| Persistence.RoundTrip | src/stores/persistanceHelpers.ts:38-41 | a state with no date and no date tag is restored exactly |
| Persistence.DateNotRestored | src/stores/persistanceHelpers.ts:7-17 | as written, a date is restored as its ISO string, not as a date |
| Persistence.SerializeIntended | src/stores/persistanceHelpers.ts:8-17 | the intended serializer stores every date as its tag; it writes no date and agrees with the actual serializer on trees without dates |
| Persistence.IntendedRoundTrip | src/stores/persistanceHelpers.ts:7-33 | with the intended serializer every state with no date tag and only valid dates is restored exactly, dates included |
| Editable.GetModel | src/directives/editable.ts:19-22 | a ref's non-empty value is read as is; a missing plain value reads as the default; the read is empty only when there is no default or the plain value is `''` |
| Editable.NewText | src/directives/editable.ts:87-88 | on update, a ref shows its value and a plain value shows itself, or the default when missing |
| Editable.ApplyModifiers | src/directives/editable.ts:33-38 | the modifiers never lengthen the text and change nothing when none is set |
| Editable.ModifiedTextShape | src/directives/editable.ts:33-38 | `trim` leaves no surrounding whitespace; `lowercase` leaves lower case; `uppercase` without `lowercase` leaves upper case |
| Editable.ApplyModifiersIdempotent | src/directives/editable.ts:33-38 | applying the modifiers twice gives the same text as once |
| Editable.Commit | src/directives/editable.ts:69-77 | a blur commits the processed draft when it is non-empty and the default otherwise, so a default makes the committed text non-empty |
| Editable.CommitStable | src/directives/editable.ts:69-77 | committing a committed text again changes nothing, unless the default itself is changed by the modifiers |
| Editable.PlaceholderRecased | src/directives/editable.ts:69-77 | with `trim`, `uppercase` and `default`, a blank title commits as `Untitled` and, committed again, becomes `UNTITLED` |
| Editable.MountConfig | src/directives/editable.ts:12-16 | the directive is active exactly when no argument is given, keeps the modifiers, and the default text is `Untitled` with `.default` and `''` without it |
| Editable.MountView | src/directives/editable.ts:28-32 | with an argument nothing is set up; otherwise the original and the draft are the model's value and the element shows that value or the default |
| Editable.FocusStep | src/directives/editable.ts:50-52 | focus leaves the shown text, the original and the committed values alone, and sets the draft to the shown text when the directive is active |
| Editable.InputStep | src/directives/editable.ts:54-56 | typing sets both the shown text and the draft to what was typed when active, keeps the original and the committed values, and does nothing when inactive |
| Editable.BlurStep | src/directives/editable.ts:69-77 | when active, blur appends the commit of the draft to the values sent to `onUpdate` and makes it the original, and shows either the same text or the default; the draft is kept; inactive, nothing changes |
| Editable.KeyStep | src/directives/editable.ts:58-67 | keys other than Enter and Escape, or an inactive directive, change nothing; Enter and Escape both commit the draft, which neither touches |
| Editable.UpdatedStep | src/directives/editable.ts:80-92 | an update never touches the original, the draft or the committed values; without an argument it shows the new value, with one nothing changes |
| Editable.ArgumentDisables | src/directives/editable.ts:12-13 | with an argument no event and no update changes anything |
| Editable.TransitionsKeepCoherent | src/directives/editable.ts:50-92 | every event and update keeps the original equal to the last committed value |
| Editable.MountIsCoherent | src/directives/editable.ts:28-32 | the mounted view is coherent |
| Editable.FocusAndInputSetDraft | src/directives/editable.ts:50-56 | focus copies the shown text into the draft; input sets both the shown text and the draft to what was typed |
| Editable.EnterOnlyBlurs | src/directives/editable.ts:58-67 | Enter is exactly a blur, and keys other than Enter and Escape change nothing |
| Editable.BlurCommits | src/directives/editable.ts:69-77 | a blur sends the committed text to `onUpdate`, makes it the original, and shows the default when the processed draft is empty |
| Editable.EscapeCommitsEditedDraft | src/directives/editable.ts:62-66 | Escape restores the shown text but still commits the draft, which the restore does not touch |
| Editable.EscapeDoesNotDiscard | src/directives/editable.ts:62-66 | after typing a new text, Escape shows the old text but the typed text is what gets saved |
| Editable.UpdatedShowsNewValue | src/directives/editable.ts:80-92 | an update shows the new value and leaves the original, the draft and the committed values alone |
| Editable.ContentEditable.constructor | src/directives/editable.ts:11-38 | mounting sets the configuration and the initial view |
| Editable.ContentEditable.Focus | src/directives/editable.ts:50-52 | performs the focus transition |
| Editable.ContentEditable.Input | src/directives/editable.ts:54-56 | performs the input transition |
| Editable.ContentEditable.Blur | src/directives/editable.ts:69-77 | performs the blur transition |
| Editable.ContentEditable.KeyDown | src/directives/editable.ts:58-67 | performs the key transition |
| Editable.ContentEditable.Updated | src/directives/editable.ts:80-92 | performs the update transition |

## Left out

- Supabase queries, RPCs, uploads and the Pinia Colada query cache are not performed: each response is a parameter, and the loading flags, caching and refetching are not modelled.
- `useDefaultTechnician` (src/stores/booking.ts:120-138) only wraps a settings query; its result enters `QueryAvailableSlots` as a parameter.
- The slot-finding algorithm runs inside a database function and is not part of this model; only the arguments sent to it and the filtering of its rows are.
- `updateSettings` (src/stores/business.ts:102-135) is only the network write; the model covers the patch built by `saveSettings` and what the getters read after it.
- `fetchAddons` in both stores and `saveServiceCategory` are plain queries and writes with no logic of their own, and the bundle and add-on state they fill is not modelled.
- Prices are integers in cents and durations are integer minutes; floating point is not modelled.
- `localeCompare` is replaced by code-point order, since locale collation has no model here.
- Strings are sequences of Unicode scalar values, not of UTF-16 code units. Two things differ from JavaScript for a character outside the Basic Multilingual Plane. The default `sort` compares code units, so such a character (a surrogate pair starting at U+D800–U+DBFF) sorts before U+E000–U+FFFF in JavaScript but after them here (`Strings.LexLe`). And `name[0]` in `initials` yields a lone high surrogate in JavaScript but the whole character here (`Profile.FirstLetters`).
- Case mapping is ASCII only; there is no Unicode case folding.
- Date arithmetic with date-fns is reduced to minutes within one day; time zones and daylight saving are left out.
- `formatTime` (src/composables/useAppointmentCalendar.ts:173-175) only calls DayPilot's formatter, which is not part of this model.
- `Calendar.StatusInfo`: names of `Object.prototype` members (such as `toString`) would read an inherited property instead of falling back to pending; the model treats them like any other unknown name.
- `Calendar.ParseNat`, `Calendar.ParseInt` and `Calendar.ParseDuration` are not in the source: they read back only the labels `formatDuration` prints, to state its round trip.
- `JsNumber.NumberTrunc`: reals are exact, so binary64 rounding is not modelled; a literal beyond the double range such as `1e400` (Infinity, so an invalid Date) reads as a large integer, and the Date range limit (`TimeClip`) is left out.
- `Inventory.InsertRow`, `Inventory.CreateVariants` and `Inventory.UpdateVariants`: one `now` stands for every `new Date().toISOString()` of a write, although the source reads the clock once per timestamp field and once per variant, so the real values may differ by a few milliseconds.
- The fetched `products` rows keep only the columns the store reads (`id`, `name`, `category_id`, `product_type` and the two flags); the other columns are carried through the cache unread and are not modelled.
- Embedded arrays in query results (`services`, `products`, `service_images`) are assumed present; a missing embedded array is not modelled.
- In-place `sort` calls are modelled as functions on values, so aliasing of the sorted arrays is not captured.
- The JSON text layer (quoting, escaping, parsing characters) is left out; `Persistence` works on the value trees that `JSON.stringify` walks and `JSON.parse` builds.
- `Persistence.Reviver`: a truthy `iso` that is not a string would become `new Date(iso)` in the source; the model leaves such an object as it is.
- Values that `JSON.stringify` drops (`undefined`, functions, symbols) and invalid dates are not modelled.
- The persisted-state plugin configuration and `localStorage` are left out.
- The combobox's asynchronous parts are reduced to one step per handler, with the awaited outcome as a parameter; the `loadingStates`/`loadingContent` flags (useEnhancedCombobox.ts:194-195, 222-223) are not modelled. Three reactive pieces are left out: the watch that copies `props.options` into `allOptions` (useEnhancedCombobox.ts:30-36), the watch that recomputes `selectedPath` with `findOptionPath` when the value or the options change (useEnhancedCombobox.ts:39-49; `FindPath` itself is modelled), and the `props.onOptionsUpdate?.(updatedOptions)` call after children load (useEnhancedCombobox.ts:217). The highlight reset on path or search change (useEnhancedCombobox.ts:52-54) is modelled by `Combobox.Settle`, and the document listener for `/` by `Combobox.SlashStep`.
- `Editable.ContentEditable.KeyDown`: the browser fires `blur` only on a focused element; the model assumes the element is focused when Enter or Escape is pressed.
- `Editable`: the DOM (`contentEditable`, `innerText`) is reduced to the shown string, and the commented-out styling is left out.

## Findings

| source | as written | input that shows it | evidently intended | confidence | as-written member | corrected member |
|---|---|---|---|---|---|---|
| src/stores/persistanceHelpers.ts:7-17 | `JSON.stringify` calls `Date.prototype.toJSON` before the replacer, so the replacer never sees a `Date`; a store that installed this serializer would store its dates as plain ISO strings and get strings back (the stores in the source do not install it, and the plugin's default serializer has the same effect on the booking store's `selectedDate`) | a state holding `JDate(iso)` | dates are stored as `{__type: 'Date', iso}` tags and restored as dates | not executed | Persistence.DateNotRestored | Persistence.IntendedRoundTrip |
