/**
 * The booking wizard store: service and add-on totals, the step guards, the
 * navigation between the five steps, profile autofill, the client-side step
 * after the time-slot RPC, and the appointment record built by `createBooking`.
 * Prices are integers (cents); times of day are minutes since midnight.
 */
module Booking {
  import opened Wrappers
  import opened Strings
  import opened Js
  import opened JsNumber

  // ---------------------------------------------------------------- rows

  /** The fields of a `services` row that the wizard reads. */
  datatype Service = Service(id: string, duration_minutes: int, base_price: int)

  /** The fields of an `addons` row that the wizard reads; both may be null. */
  datatype AddOn = AddOn(id: string, additional_time_minutes: Option<int>, price: Option<int>)

  /** A calendar day as the date picker yields it. */
  datatype CalendarDate = CalendarDate(year: nat, month: nat, day: nat)

  datatype ClientInfo = ClientInfo(
    client_name: string,
    client_whatsapp: string,
    client_phone: string,
    client_email: Option<string>,
    special_requests: Option<string>)

  /** One row returned by `get_time_slots_for_day`. */
  datatype TimeSlotRow = TimeSlotRow(time_slot: string, is_available: bool, reason: string)

  /** The arguments passed to `get_time_slots_for_day`. */
  datatype SlotRpcArgs = SlotRpcArgs(
    p_date: string,
    p_technician_id: string,
    p_service_duration_minutes: int,
    p_slot_interval_minutes: int)

  /** The profile fields `autoFillFromProfile` reads. */
  datatype ProfileFill = ProfileFill(full_name: Option<string>, phone: Option<string>, email: Option<string>)

  datatype AppointmentInsert = AppointmentInsert(
    technician_id: string,
    appointment_date: string,
    start_time: string,
    end_time: string,
    duration_minutes: int,
    service_id: Option<string>,
    quoted_price: int,
    client_id: Option<string>,
    client_name: string,
    client_phone: string,
    client_whatsapp: string,
    client_email: Option<string>,
    inspiration_image_url: Option<string>,
    special_requests: Option<string>,
    status: string)

  datatype AddonRecord = AddonRecord(appointment_id: string, addon_id: string, quantity: int)

  const MissingInformation := "Cannot create booking: missing required information"
  const InvalidTimeValue := "Invalid time value"
  const NoDateSelected := "Please select a date"
  const SlotIntervalMinutes := 30

  // ---------------------------------------------------------------- totals

  /** `xs.reduce((sum, x) => sum + f(x), 0)`, folding from the left. */
  function SumBy<T>(xs: seq<T>, f: T -> int): (r: int)
    ensures (forall i :: 0 <= i < |xs| ==> f(xs[i]) >= 0) ==> r >= 0
  {
    if xs == [] then 0 else SumBy(xs[..|xs| - 1], f) + f(xs[|xs| - 1])
  }

  lemma {:induction false} SumByAppend<T>(a: seq<T>, b: seq<T>, f: T -> int)
    ensures SumBy(a + b, f) == SumBy(a, f) + SumBy(b, f)
    decreases |b|
  {
    if b == [] {
      assert a + b == a;
    } else {
      assert (a + b)[..|a + b| - 1] == a + b[..|b| - 1];
      SumByAppend(a, b[..|b| - 1], f);
    }
  }

  /** The sum does not depend on the order of the elements. */
  lemma {:induction false} SumByPermutation<T>(a: seq<T>, b: seq<T>, f: T -> int)
    requires multiset(a) == multiset(b)
    ensures SumBy(a, f) == SumBy(b, f)
    decreases |a|
  {
    if a != [] {
      var x := a[0];
      assert x in multiset(b);
      var k :| 0 <= k < |b| && b[k] == x;
      var rest := b[..k] + b[k + 1..];
      assert b == b[..k] + [x] + b[k + 1..];
      assert a == [x] + a[1..];
      assert multiset(b) == multiset(b[..k]) + multiset{x} + multiset(b[k + 1..]);
      assert multiset(a) == multiset{x} + multiset(a[1..]);
      assert multiset(rest) == multiset(b[..k]) + multiset(b[k + 1..]);
      assert multiset(a[1..]) == multiset(a) - multiset{x};
      assert multiset(rest) == multiset(b) - multiset{x};
      SumByPermutation(a[1..], rest, f);
      SumByAppend([x], a[1..], f);
      SumByAppend(b[..k] + [x], b[k + 1..], f);
      SumByAppend(b[..k], [x], f);
      SumByAppend(b[..k], b[k + 1..], f);
      assert SumBy([x], f) == f(x) by {
        assert [x][..0] == [];
      }
    }
  }

  function AddonMinutes(a: AddOn): int {
    OrZero(a.additional_time_minutes)
  }

  function AddonPrice(a: AddOn): int {
    OrZero(a.price)
  }

  /** Getter `totalDuration`: 0 without a service; else its duration plus every add-on's extra time. */
  function TotalDuration(service: Option<Service>, addons: seq<AddOn>): (r: int)
    ensures service.None? ==> r == 0
    ensures service.Some? && addons == [] ==> r == service.value.duration_minutes
    ensures service.Some? && (forall i :: 0 <= i < |addons| ==> AddonMinutes(addons[i]) >= 0) ==>
      r >= service.value.duration_minutes
  {
    if service.None? then 0 else service.value.duration_minutes + SumBy(addons, AddonMinutes)
  }

  /** Getter `totalPrice`: 0 without a service; else its base price plus every add-on's price. */
  function TotalPrice(service: Option<Service>, addons: seq<AddOn>): (r: int)
    ensures service.None? ==> r == 0
    ensures service.Some? && addons == [] ==> r == service.value.base_price
    ensures service.Some? && (forall i :: 0 <= i < |addons| ==> AddonPrice(addons[i]) >= 0) ==>
      r >= service.value.base_price
  {
    if service.None? then 0 else service.value.base_price + SumBy(addons, AddonPrice)
  }

  /** Without a service both totals are 0, whatever the add-ons. */
  lemma TotalsWithoutService(addons: seq<AddOn>)
    ensures TotalDuration(None, addons) == 0 && TotalPrice(None, addons) == 0
  {
  }

  /** Without add-ons the totals are the service's own duration and price. */
  lemma TotalsWithoutAddons(s: Service)
    ensures TotalDuration(Some(s), []) == s.duration_minutes
    ensures TotalPrice(Some(s), []) == s.base_price
  {
  }

  /** Adding one add-on adds its extra minutes and its price, a null counting as 0. */
  lemma TotalsAddOne(s: Service, addons: seq<AddOn>, a: AddOn)
    ensures TotalDuration(Some(s), addons + [a]) == TotalDuration(Some(s), addons) + OrZero(a.additional_time_minutes)
    ensures TotalPrice(Some(s), addons + [a]) == TotalPrice(Some(s), addons) + OrZero(a.price)
  {
    SumByAppend(addons, [a], AddonMinutes);
    SumByAppend(addons, [a], AddonPrice);
    assert [a][..0] == [];
  }

  /** The totals do not depend on the order in which add-ons were picked. */
  lemma TotalsOrderIndependent(service: Option<Service>, a: seq<AddOn>, b: seq<AddOn>)
    requires multiset(a) == multiset(b)
    ensures TotalDuration(service, a) == TotalDuration(service, b)
    ensures TotalPrice(service, a) == TotalPrice(service, b)
  {
    SumByPermutation(a, b, AddonMinutes);
    SumByPermutation(a, b, AddonPrice);
  }

  // ---------------------------------------------------------------- guards

  /** `!!(selectedDate && selectedTime)`: the condition of `canProceedToStep2`, and of step 3. */
  predicate DateTimeChosen(date: Option<CalendarDate>, time: Option<string>)
    ensures DateTimeChosen(date, time) <==> date.Some? && time.Some? && time.value != ""
  {
    date.Some? && Truthy(time)
  }

  /** The condition of `canProceedToStep4`. */
  predicate DetailsComplete(date: Option<CalendarDate>, time: Option<string>, info: ClientInfo)
    ensures DetailsComplete(date, time, info) ==> date.Some? && time.Some? && time.value != ""
    ensures DetailsComplete(date, time, info) ==> info.client_name != "" && info.client_whatsapp != "" && info.client_phone != ""
  {
    DateTimeChosen(date, time) && info.client_name != "" && info.client_whatsapp != "" && info.client_phone != ""
  }

  /** Step 4 needs everything step 3 needs, plus a name, a WhatsApp number and a phone. */
  lemma DetailsNeedDateTime(date: Option<CalendarDate>, time: Option<string>, info: ClientInfo)
    ensures DetailsComplete(date, time, info) <==>
      (DateTimeChosen(date, time) && info.client_name != "" && info.client_whatsapp != "" && info.client_phone != "")
    ensures DetailsComplete(date, time, info) ==> DateTimeChosen(date, time)
  {
  }

  /** The e-mail address and the special requests never affect whether step 4 is reachable. */
  lemma DetailsIgnoreOptionalFields(date: Option<CalendarDate>, time: Option<string>, info: ClientInfo,
                                    email: Option<string>, requests: Option<string>)
    ensures DetailsComplete(date, time, info)
         == DetailsComplete(date, time, info.(client_email := email, special_requests := requests))
  {
  }

  /** An empty time string does not count as a chosen time. */
  lemma EmptyTimeBlocks(date: Option<CalendarDate>)
    ensures !DateTimeChosen(date, Some("")) && !DateTimeChosen(date, None)
  {
  }

  // ---------------------------------------------------------------- autofill

  /** `autoFillFromProfile` as a function of the old client info. */
  function AutoFill(info: ClientInfo, p: ProfileFill): (r: ClientInfo)
    ensures r.special_requests == info.special_requests
    ensures r.client_name == (if Truthy(p.full_name) then p.full_name.value else info.client_name)
    ensures Truthy(p.phone) ==> r.client_phone == p.phone.value && r.client_whatsapp == p.phone.value
    ensures !Truthy(p.phone) ==> r.client_phone == info.client_phone && r.client_whatsapp == info.client_whatsapp
    ensures r.client_email == (if Truthy(p.email) then p.email else info.client_email)
  {
    var a := if Truthy(p.full_name) then info.(client_name := p.full_name.value) else info;
    var b := if Truthy(p.phone) then a.(client_phone := p.phone.value, client_whatsapp := p.phone.value) else a;
    if Truthy(p.email) then b.(client_email := p.email) else b
  }

  /** Filling twice from the same profile changes nothing more. */
  lemma AutoFillIdempotent(info: ClientInfo, p: ProfileFill)
    ensures AutoFill(AutoFill(info, p), p) == AutoFill(info, p)
  {
  }

  /** A profile without any truthy field leaves the client info as it was. */
  lemma AutoFillEmptyProfile(info: ClientInfo, p: ProfileFill)
    requires !Truthy(p.full_name) && !Truthy(p.phone) && !Truthy(p.email)
    ensures AutoFill(info, p) == info
  {
  }

  // ---------------------------------------------------------------- slots

  /** `timeStr.substring(0, 5)`: the first five characters, or all of a shorter string. */
  function SlotLabel(t: string): (r: string)
    ensures |r| <= 5 && StartsWith(t, r)
    ensures |t| >= 5 ==> |r| == 5
  {
    if |t| <= 5 then t else t[..5]
  }

  /** A database TIME "HH:MM:SS" is cut to "HH:MM". */
  lemma SlotLabelOfTime(hh: string, mm: string, ss: string)
    requires |hh| == 2 && |mm| == 2 && |ss| == 2
    ensures SlotLabel(hh + ":" + mm + ":" + ss) == hh + ":" + mm
  {
  }

  /** The filter/map after the RPC: the labels of the available rows, in row order. */
  function AvailableSlots(rows: seq<TimeSlotRow>): (r: seq<string>)
    ensures |r| <= |rows|
    ensures forall i :: 0 <= i < |r| ==> |r[i]| <= 5
    ensures (forall i :: 0 <= i < |rows| ==> !rows[i].is_available) ==> r == []
  {
    if rows == [] then []
    else (if rows[0].is_available then [SlotLabel(rows[0].time_slot)] else []) + AvailableSlots(rows[1..])
  }

  /** The slot list of consecutive row batches is the concatenation of their slot lists. */
  lemma {:induction false} AvailableSlotsAppend(a: seq<TimeSlotRow>, b: seq<TimeSlotRow>)
    ensures AvailableSlots(a + b) == AvailableSlots(a) + AvailableSlots(b)
  {
    if a == [] {
      assert a + b == b;
    } else {
      assert (a + b)[1..] == a[1..] + b;
      AvailableSlotsAppend(a[1..], b);
    }
  }

  /** A label is in the list exactly when some available row yields it; never longer than the rows. */
  lemma {:induction false} AvailableSlotsMembers(rows: seq<TimeSlotRow>, x: string)
    ensures |AvailableSlots(rows)| <= |rows|
    ensures x in AvailableSlots(rows) <==>
      exists i :: 0 <= i < |rows| && rows[i].is_available && SlotLabel(rows[i].time_slot) == x
  {
    if rows != [] {
      AvailableSlotsMembers(rows[1..], x);
      if x in AvailableSlots(rows[1..]) {
        var i :| 0 <= i < |rows[1..]| && rows[1..][i].is_available && SlotLabel(rows[1..][i].time_slot) == x;
        assert rows[i + 1] == rows[1..][i];
      }
      forall i | 1 <= i < |rows| && rows[i].is_available && SlotLabel(rows[i].time_slot) == x
        ensures x in AvailableSlots(rows[1..])
      {
        assert rows[1..][i - 1] == rows[i];
      }
    }
  }

  /** When every row is available, there is one label per row. */
  lemma {:induction false} AllAvailable(rows: seq<TimeSlotRow>)
    requires forall i :: 0 <= i < |rows| ==> rows[i].is_available
    ensures |AvailableSlots(rows)| == |rows|
  {
    if rows != [] {
      AllAvailable(rows[1..]);
    }
  }

  // ---------------------------------------------------------------- times

  /** `format(date, 'yyyy-MM-dd')`. */
  function FormatDate(d: CalendarDate): (r: string)
    ensures var parts := Split(r, '-');
      |parts| == 3 && AllDigits(parts[0]) && AllDigits(parts[1]) && AllDigits(parts[2])
      && DigitsValue(parts[0]) == d.year && DigitsValue(parts[1]) == d.month && DigitsValue(parts[2]) == d.day
    ensures d.year < 10000 && d.month < 100 && d.day < 100 ==> |r| == 10
  {
    DateParts(d);
    PadLeft(d.year, 4) + "-" + PadLeft(d.month, 2) + "-" + PadLeft(d.day, 2)
  }

  /**
   * `startTime.split(':').map(Number)` destructured to hours and minutes, each
   * truncated to an integer as `setHours` does. `None` where the minutes part is
   * missing or either part reads as NaN: the Date is then invalid.
   */
  function ParseClock(t: string): (r: Option<(int, int)>)
    ensures ':' !in t ==> r.None?
  {
    var parts := Split(t, ':');
    if |parts| < 2 then None
    else match (NumberTrunc(parts[0]), NumberTrunc(parts[1]))
      case (Some(h), Some(m)) => Some((h, m))
      case _ => None
  }

  /** The hour is `Number` of the text before the colon, the minute `Number` of the text after it. */
  lemma ParseClockOfParts(a: string, b: string)
    requires ':' !in a && ':' !in b
    ensures ParseClock(a + ":" + b) ==
      if NumberTrunc(a).Some? && NumberTrunc(b).Some? then Some((NumberTrunc(a).value, NumberTrunc(b).value))
      else None
  {
    SplitAroundSeparator(a, b, ':');
  }

  /** Two digit strings around a colon read as their values. */
  lemma ParseClockOfDigits(a: string, b: string)
    requires AllDigits(a) && AllDigits(b)
    ensures ParseClock(a + ":" + b) == Some((DigitsValue(a) as int, DigitsValue(b) as int))
  {
    ParseClockOfParts(a, b);
    NumberOfDigitString(a);
    NumberOfDigitString(b);
  }

  /** `Number` ignores leading whitespace: " 9:30" starts at 09:30. */
  lemma PaddedClock(w: string, a: string, b: string)
    requires forall i :: 0 <= i < |w| ==> IsWhitespace(w[i])
    requires |a| >= 1 && AllDigits(a) && AllDigits(b)
    ensures ParseClock(w + a + ":" + b) == Some((DigitsValue(a) as int, DigitsValue(b) as int))
  {
    NoColonInPadding(w, a);
    ParseClockOfParts(w + a, b);
    PaddedDigits(w, a);
    NumberOfDigitString(b);
  }

  lemma NoColonInPadding(w: string, a: string)
    requires forall i :: 0 <= i < |w| ==> IsWhitespace(w[i])
    requires AllDigits(a)
    ensures ':' !in w + a
  {
    forall i | 0 <= i < |w + a| ensures (w + a)[i] != ':' {
      if i < |w| {
        assert IsWhitespace(w[i]);
      } else {
        assert IsDigit(a[i - |w|]);
      }
    }
  }

  /** A sign before the hour is accepted: "+9:30" starts at 09:30, "-1:00" an hour before the selected day. */
  lemma SignedClock(h: string, b: string)
    requires |h| >= 2 && (h[0] == '+' || h[0] == '-') && AllDigits(h[1..]) && AllDigits(b)
    ensures ParseClock(h + ":" + b) ==
      Some((if h[0] == '-' then -(DigitsValue(h[1..]) as int) else DigitsValue(h[1..]) as int, DigitsValue(b) as int))
  {
    assert ':' !in h by {
      forall i | 1 <= i < |h| ensures h[i] != ':' {
        assert h[i] == h[1..][i - 1];
      }
    }
    ParseClockOfParts(h, b);
    if h[0] == '-' {
      MinusDigits(h);
    } else {
      PlusDigits(h);
    }
    NumberOfDigitString(b);
  }

  /** A fractional hour is truncated: "9.5:00" starts at 09:00. */
  lemma FractionalClock(a: string, f: string, b: string)
    requires |a| >= 1 && AllDigits(a) && AllDigits(f) && AllDigits(b)
    ensures ParseClock(a + "." + f + ":" + b) == Some((DigitsValue(a) as int, DigitsValue(b) as int))
  {
    assert ':' !in a + "." + f;
    ParseClockOfParts(a + "." + f, b);
    FractionTruncated(a, f);
    NumberOfDigitString(b);
  }

  /** An exponent scales the hour: "1e1:00" starts at 10:00. */
  lemma ExponentClock(a: string, k: nat, b: string)
    requires |a| >= 1 && AllDigits(a) && AllDigits(b)
    ensures ParseClock(a + "e" + NatToString(k) + ":" + b) == Some(((DigitsValue(a) * Pow10(k)) as int, DigitsValue(b) as int))
  {
    assert ':' !in a + "e" + NatToString(k);
    ParseClockOfParts(a + "e" + NatToString(k), b);
    ExponentScales(a, k);
    NumberOfDigitString(b);
  }

  lemma DateParts(d: CalendarDate)
    ensures var y, m, dd := PadLeft(d.year, 4), PadLeft(d.month, 2), PadLeft(d.day, 2);
      Split(y + "-" + m + "-" + dd, '-') == [y, m, dd]
      && DigitsValue(y) == d.year && DigitsValue(m) == d.month && DigitsValue(dd) == d.day
      && (d.year < 10000 && d.month < 100 && d.day < 100 ==> |y| == 4 && |m| == 2 && |dd| == 2)
  {
    var y, m, dd := PadLeft(d.year, 4), PadLeft(d.month, 2), PadLeft(d.day, 2);
    assert '-' !in y && '-' !in m && '-' !in dd;
    SplitAroundSeparators(y, m, dd, '-');
    PadLeftValue(d.year, 4);
    PadLeftValue(d.month, 2);
    PadLeftValue(d.day, 2);
    if d.year < 10000 && d.month < 100 && d.day < 100 {
      assert Pow10(4) == 10000 && Pow10(2) == 100;
      PadLeftExact(d.year, 4);
      PadLeftExact(d.month, 2);
      PadLeftExact(d.day, 2);
    }
  }

  /** `format(d, 'HH:mm')` of the time `minute` minutes after midnight. */
  function FormatClock(minute: nat): (r: string)
    requires minute < 1440
    ensures |r| == 5 && r[2] == ':'
  {
    Pad2Length(minute / 60);
    Pad2Length(minute % 60);
    PadLeft(minute / 60, 2) + ":" + PadLeft(minute % 60, 2)
  }

  /** The minute of the day at which a booking starting at hours:minutes and lasting `duration` ends. */
  function EndMinute(hours: int, minutes: int, duration: int): (r: nat)
    ensures r < 1440
    ensures (r - (hours * 60 + minutes + duration)) % 1440 == 0
  {
    (hours * 60 + minutes + duration) % 1440
  }

  /** An "HH:mm" rendering reads back as its hours and minutes. */
  lemma ClockRoundTrip(minute: nat)
    requires minute < 1440
    ensures ParseClock(FormatClock(minute)) == Some((minute / 60, minute % 60))
  {
    var h, m := PadLeft(minute / 60, 2), PadLeft(minute % 60, 2);
    ParseClockOfDigits(h, m);
    PadLeftValue(minute / 60, 2);
    PadLeftValue(minute % 60, 2);
  }

  /** The hour and minute of the end minute give back the start plus the duration, modulo a day. */
  lemma EndMinuteSplits(hours: int, minutes: int, duration: int)
    ensures var e := EndMinute(hours, minutes, duration);
      (e / 60 * 60 + e % 60 - (hours * 60 + minutes + duration)) % 1440 == 0
  {
    var e := EndMinute(hours, minutes, duration);
    assert e / 60 * 60 + e % 60 == e;
  }

  /** `end_time` read back is the start plus the total duration, modulo a day. */
  lemma EndTimeReadsBack(hours: int, minutes: int, duration: int)
    ensures var e := EndMinute(hours, minutes, duration);
      ParseClock(FormatClock(e)) == Some((e / 60, e % 60))
      && (e / 60 * 60 + e % 60 - (hours * 60 + minutes + duration)) % 1440 == 0
  {
    EndMinuteSplits(hours, minutes, duration);
    ClockRoundTrip(EndMinute(hours, minutes, duration));
  }

  /** One `appointment_addons` record per selected add-on, none (and no insert) for an empty list. */
  function AddonRecords(appointmentId: string, addonIds: seq<string>): (r: Option<seq<AddonRecord>>)
    ensures r.None? <==> addonIds == []
    ensures r.Some? ==> |r.value| == |addonIds|
    ensures r.Some? ==> forall i :: 0 <= i < |addonIds| ==>
      r.value[i].addon_id == addonIds[i] && r.value[i].appointment_id == appointmentId && r.value[i].quantity == 1
  {
    if addonIds == [] then None
    else Some(seq(|addonIds|, i requires 0 <= i < |addonIds| => AddonRecord(appointmentId, addonIds[i], 1)))
  }

  /** Path of an uploaded inspiration image: `inspiration-images/<timestamp>_<fileName>`. */
  function InspirationUploadPath(timestamp: nat, fileName: string): (r: string)
    ensures StartsWith(r, "inspiration-images/") && EndsWith(r, "_" + fileName)
  {
    "inspiration-images/" + NatToString(timestamp) + "_" + fileName
  }

  // ---------------------------------------------------------------- store

  class BookingStore {
    var selectedServiceId: Option<string>
    var selectedAddonIds: seq<string>
    var selectedDate: Option<CalendarDate>
    var selectedTime: Option<string>
    var isAuthFlowSkipped: bool
    var clientInfo: ClientInfo
    /** The file name of the chosen inspiration image, if any. */
    var inspirationImage: Option<string>
    var currentStep: int
    var defaultTechnicianId: string

    /** The wizard is always on one of its five steps. */
    ghost predicate Valid()
      reads this
    {
      1 <= currentStep <= 5
    }

    ghost predicate Initial()
      reads this
    {
      && selectedServiceId == None && selectedAddonIds == []
      && selectedDate == None && selectedTime == None
      && !isAuthFlowSkipped
      && clientInfo == ClientInfo("", "", "", Some(""), Some(""))
      && inspirationImage == None
      && currentStep == 1
      && defaultTechnicianId == ""
    }

    /** The store's initial `state()`. */
    constructor ()
      ensures Valid() && Initial()
    {
      selectedServiceId, selectedAddonIds := None, [];
      selectedDate, selectedTime := None, None;
      isAuthFlowSkipped := false;
      clientInfo := ClientInfo("", "", "", Some(""), Some(""));
      inspirationImage := None;
      currentStep := 1;
      defaultTechnicianId := "";
    }

    /** Getters `canProceedToStep2` and `canProceedToStep3` (the latter returns the former). */
    function CanProceedToStep2(): (r: bool)
      reads this
      ensures r <==> selectedDate.Some? && selectedTime.Some? && selectedTime.value != ""
    {
      DateTimeChosen(selectedDate, selectedTime)
    }

    /** Getter `canProceedToStep4`. */
    function CanProceedToStep4(): (r: bool)
      reads this
      ensures r ==> CanProceedToStep2()
      ensures r <==> CanProceedToStep2() && clientInfo.client_name != "" && clientInfo.client_whatsapp != ""
                     && clientInfo.client_phone != ""
    {
      DetailsComplete(selectedDate, selectedTime, clientInfo)
    }

    /** `initializeFromParams`: records the URL's service and add-ons and returns to step 1. */
    method InitializeFromParams(serviceId: string, addonIds: seq<string>)
      modifies this
      ensures Valid()
      ensures selectedServiceId == Some(serviceId) && selectedAddonIds == addonIds && currentStep == 1
      ensures selectedDate == old(selectedDate) && selectedTime == old(selectedTime)
      ensures clientInfo == old(clientInfo) && inspirationImage == old(inspirationImage)
      ensures isAuthFlowSkipped == old(isAuthFlowSkipped) && defaultTechnicianId == old(defaultTechnicianId)
    {
      selectedServiceId := Some(serviceId);
      selectedAddonIds := addonIds;
      currentStep := 1;
    }

    /** `setDateTime`. */
    method SetDateTime(date: CalendarDate, time: string)
      modifies this`selectedDate, this`selectedTime
      ensures selectedDate == Some(date) && selectedTime == Some(time)
      ensures CanProceedToStep2() <==> time != ""
    {
      selectedDate, selectedTime := Some(date), Some(time);
    }

    /** `setClientInfo`. */
    method SetClientInfo(info: ClientInfo)
      modifies this`clientInfo
      ensures clientInfo == info
    {
      clientInfo := info;
    }

    /** `setInspirationImage`. */
    method SetInspirationImage(file: Option<string>)
      modifies this`inspirationImage
      ensures inspirationImage == file
    {
      inspirationImage := file;
    }

    /** `skipAuthFlow`. */
    method SkipAuthFlow()
      modifies this`isAuthFlowSkipped
      ensures isAuthFlowSkipped
    {
      isAuthFlowSkipped := true;
    }

    /** `goToStep`: moves only to a step between 1 and 5, otherwise does nothing. */
    method GoToStep(step: int)
      requires Valid()
      modifies this`currentStep
      ensures Valid()
      ensures currentStep == (if 1 <= step <= 5 then step else old(currentStep))
    {
      if 1 <= step && step <= 5 {
        currentStep := step;
      }
    }

    /** `autoFillFromProfile`: overwrites a field only from a truthy profile field. */
    method AutoFillFromProfile(profile: ProfileFill)
      modifies this`clientInfo
      ensures clientInfo == AutoFill(old(clientInfo), profile)
    {
      if Truthy(profile.full_name) {
        clientInfo := clientInfo.(client_name := profile.full_name.value);
      }
      if Truthy(profile.phone) {
        clientInfo := clientInfo.(client_phone := profile.phone.value);
        clientInfo := clientInfo.(client_whatsapp := profile.phone.value);
      }
      if Truthy(profile.email) {
        clientInfo := clientInfo.(client_email := profile.email);
      }
    }

    /** `resetBooking`: back to the initial state. */
    method ResetBooking()
      modifies this
      ensures Valid() && Initial()
    {
      selectedServiceId, selectedAddonIds := None, [];
      selectedDate, selectedTime := None, None;
      isAuthFlowSkipped := false;
      clientInfo := ClientInfo("", "", "", Some(""), Some(""));
      inspirationImage := None;
      currentStep := 1;
      defaultTechnicianId := "";
    }

    /**
     * The query of `useAvailableSlots`. `settingsLookup` is the outcome of reading
     * the technician from `business_settings` (consulted only while no technician
     * is cached) and `rpc` the outcome of the `get_time_slots_for_day` call.
     */
    method QueryAvailableSlots(date: Option<CalendarDate>, duration: int,
                               settingsLookup: Result<string>, rpc: Result<seq<TimeSlotRow>>)
      returns (r: Result<seq<string>>, args: Option<SlotRpcArgs>)
      modifies this`defaultTechnicianId
      ensures date.None? ==> r == Err(NoDateSelected) && args.None? && defaultTechnicianId == old(defaultTechnicianId)
      ensures date.Some? && old(defaultTechnicianId) == "" && settingsLookup.Err? ==>
        r == Err(settingsLookup.error) && args.None?
      ensures date.Some? && old(defaultTechnicianId) == "" && settingsLookup.Ok? ==>
        defaultTechnicianId == settingsLookup.value
      ensures date.Some? && old(defaultTechnicianId) != "" ==> defaultTechnicianId == old(defaultTechnicianId)
      ensures args.Some? ==> args.value == SlotRpcArgs(FormatDate(date.value), defaultTechnicianId, duration, SlotIntervalMinutes)
      ensures args.Some? ==> r == (if rpc.Ok? then Ok(AvailableSlots(rpc.value)) else Err(rpc.error))
      ensures date.Some? && (old(defaultTechnicianId) != "" || settingsLookup.Ok?) ==> args.Some?
    {
      if date.None? {
        return Err(NoDateSelected), None;
      }
      if defaultTechnicianId == "" {
        if settingsLookup.Err? {
          return Err(settingsLookup.error), None;
        }
        defaultTechnicianId := settingsLookup.value;
      }
      args := Some(SlotRpcArgs(FormatDate(date.value), defaultTechnicianId, duration, SlotIntervalMinutes));
      if rpc.Err? {
        return Err(rpc.error), args;
      }
      r := Ok(AvailableSlots(rpc.value));
    }

    /**
     * `createBooking` up to the appointment insert. `upload` is the outcome of
     * uploading the inspiration image (its public URL), used only when an image
     * is set; `now` is `Date.now()`. `uploadPath` is the storage path written,
     * if any: nothing is written when the guard fails.
     */
    method CreateBooking(service: Service, addons: seq<AddOn>, clientId: Option<string>,
                         upload: Result<string>, now: nat)
      returns (r: Result<AppointmentInsert>, uploadPath: Option<string>)
      ensures !CanProceedToStep4() ==> r == Err(MissingInformation) && uploadPath.None?
      ensures uploadPath.Some? <==> CanProceedToStep4() && inspirationImage.Some?
      ensures uploadPath.Some? ==> uploadPath.value == InspirationUploadPath(now, inspirationImage.value)
      ensures CanProceedToStep4() && inspirationImage.Some? && upload.Err? ==> r == Err(upload.error)
      ensures r.Ok? ==> CanProceedToStep4() && ParseClock(selectedTime.value).Some?
      ensures CanProceedToStep4() && (inspirationImage.None? || upload.Ok?) ==>
        (r.Ok? <==> ParseClock(selectedTime.value).Some?)
      ensures CanProceedToStep4() && (inspirationImage.None? || upload.Ok?) && ParseClock(selectedTime.value).None? ==>
        r == Err(InvalidTimeValue)
      ensures r.Ok? ==>
        var a := r.value;
        var (h, m) := ParseClock(selectedTime.value).value;
        && a.start_time == selectedTime.value
        && a.end_time == FormatClock(EndMinute(h, m, TotalDuration(Some(service), addons)))
        && a.duration_minutes == TotalDuration(Some(service), addons)
        && a.quoted_price == TotalPrice(Some(service), addons)
        && a.appointment_date == FormatDate(selectedDate.value)
        && a.technician_id == defaultTechnicianId
        && a.service_id == selectedServiceId
        && a.client_id == OrNull(clientId)
        && a.client_name == clientInfo.client_name
        && a.client_phone == clientInfo.client_phone
        && a.client_whatsapp == clientInfo.client_whatsapp
        && a.client_email == OrNull(clientInfo.client_email)
        && a.special_requests == OrNull(clientInfo.special_requests)
        && a.inspiration_image_url == (if inspirationImage.Some? then Some(upload.value) else None)
        && a.status == "pending"
    {
      if !CanProceedToStep4() {
        return Err(MissingInformation), None;
      }
      var inspirationUrl: Option<string> := None;
      uploadPath := None;
      if inspirationImage.Some? {
        uploadPath := Some(InspirationUploadPath(now, inspirationImage.value));
        if upload.Err? {
          return Err(upload.error), uploadPath;
        }
        inspirationUrl := Some(upload.value);
      }
      var duration := TotalDuration(Some(service), addons);
      var totalPrice := TotalPrice(Some(service), addons);
      var startTime := selectedTime.value;
      var clock := ParseClock(startTime);
      if clock.None? {
        return Err(InvalidTimeValue), uploadPath;
      }
      var (hours, minutes) := clock.value;
      var endTime := FormatClock(EndMinute(hours, minutes, duration));
      r := Ok(AppointmentInsert(
        technician_id := defaultTechnicianId,
        appointment_date := FormatDate(selectedDate.value),
        start_time := startTime,
        end_time := endTime,
        duration_minutes := duration,
        service_id := selectedServiceId,
        quoted_price := totalPrice,
        client_id := OrNull(clientId),
        client_name := clientInfo.client_name,
        client_phone := clientInfo.client_phone,
        client_whatsapp := clientInfo.client_whatsapp,
        client_email := OrNull(clientInfo.client_email),
        inspiration_image_url := inspirationUrl,
        special_requests := OrNull(clientInfo.special_requests),
        status := "pending"));
    }
  }

  /** Starting from the initial state, any sequence of `goToStep` calls keeps the step in 1..5. */
  method StepStaysInRange(steps: seq<int>) returns (final: int)
    ensures 1 <= final <= 5
    ensures final == LastValidStep(1, steps)
  {
    var store := new BookingStore();
    for i := 0 to |steps|
      invariant store.Valid()
      invariant store.currentStep == LastValidStep(1, steps[..i])
    {
      store.GoToStep(steps[i]);
      assert steps[..i + 1] == steps[..i] + [steps[i]];
      LastValidStepSnoc(1, steps[..i], steps[i]);
    }
    assert steps[..|steps|] == steps;
    final := store.currentStep;
  }

  /** The step reached from `start` by a sequence of `goToStep` calls: the last in-range request. */
  function LastValidStep(start: int, steps: seq<int>): int
    decreases steps
  {
    if steps == [] then start
    else LastValidStep(if 1 <= steps[0] <= 5 then steps[0] else start, steps[1..])
  }

  lemma {:induction false} LastValidStepSnoc(start: int, steps: seq<int>, s: int)
    ensures LastValidStep(start, steps + [s])
         == (if 1 <= s <= 5 then s else LastValidStep(start, steps))
    decreases steps
  {
    if steps != [] {
      assert (steps + [s])[1..] == steps[1..] + [s];
      LastValidStepSnoc(if 1 <= steps[0] <= 5 then steps[0] else start, steps[1..], s);
    }
  }
}
