/**
 * The appointment calendar helpers: the styling table per appointment status,
 * the transform of an `appointment_calendar` view row into a calendar event,
 * the list transform that drops incomplete rows, and the duration label.
 * Prices are integers (cents); durations are whole minutes.
 */
module Calendar {
  import opened Wrappers
  import opened Strings
  import opened Js

  // ---------------------------------------------------------------- status styling

  datatype AppointmentStatus = Pending | Confirmed | InProgress | Completed | Cancelled | NoShow

  /** The database spelling of a status. */
  function StatusName(s: AppointmentStatus): string {
    match s
    case Pending => "pending"
    case Confirmed => "confirmed"
    case InProgress => "in_progress"
    case Completed => "completed"
    case Cancelled => "cancelled"
    case NoShow => "no_show"
  }

  datatype StatusConfig = StatusConfig(
    back: string,
    border: string,
    bar: string,
    badge: string,
    icon: string,
    labelText: string)

  /** The fixed styling of each status. */
  function ConfigOf(s: AppointmentStatus): StatusConfig {
    match s
    case Pending => StatusConfig("#FEF3C7", "#F59E0B", "#F59E0B",
      "bg-yellow-100 text-yellow-800 border-yellow-300", "\U{23F3}", "Pending")
    case Confirmed => StatusConfig("#DBEAFE", "#3B82F6", "#3B82F6",
      "bg-blue-100 text-blue-800 border-blue-300", "\U{2713}", "Confirmed")
    case InProgress => StatusConfig("#E9D5FF", "#A855F7", "#A855F7",
      "bg-purple-100 text-purple-800 border-purple-300", "\U{25B6}", "In Progress")
    case Completed => StatusConfig("#D1FAE5", "#10B981", "#10B981",
      "bg-green-100 text-green-800 border-green-300", "\U{2713}", "Completed")
    case Cancelled => StatusConfig("#FEE2E2", "#EF4444", "#EF4444",
      "bg-red-100 text-red-800 border-red-300", "\U{2715}", "Cancelled")
    case NoShow => StatusConfig("#F3F4F6", "#6B7280", "#6B7280",
      "bg-gray-100 text-gray-800 border-gray-300", "\U{25EF}", "No Show")
  }

  /** The status a database spelling names, if any. */
  function ParseStatus(name: string): (r: Option<AppointmentStatus>)
    ensures r.Some? ==> StatusName(r.value) == name
    ensures r.None? ==> forall s :: StatusName(s) != name
  {
    if name == "pending" then Some(Pending)
    else if name == "confirmed" then Some(Confirmed)
    else if name == "in_progress" then Some(InProgress)
    else if name == "completed" then Some(Completed)
    else if name == "cancelled" then Some(Cancelled)
    else if name == "no_show" then Some(NoShow)
    else None
  }

  /** Every status's spelling reads back as that status. */
  lemma ParseStatusName()
    ensures forall s :: ParseStatus(StatusName(s)) == Some(s)
  {
    forall s
      ensures ParseStatus(StatusName(s)) == Some(s)
    {
      match s
      case Pending =>
      case Confirmed => assert "confirmed"[0] != "pending"[0];
      case InProgress => assert "in_progress"[0] != "pending"[0];
      case Completed => assert "completed"[1] != "pending"[1];
      case Cancelled =>
      case NoShow =>
    }
  }

  /** `getStatusInfo`: the table entry of a known status, the pending entry for anything else. */
  function StatusInfo(name: string): (r: StatusConfig)
    ensures forall s :: StatusName(s) == name ==> r == ConfigOf(s)
    ensures (forall s :: StatusName(s) != name) ==> r == ConfigOf(Pending)
  {
    ParseStatusName();
    match ParseStatus(name)
    case Some(s) => ConfigOf(s)
    case None => ConfigOf(Pending)
  }

  /** The label each status is shown with. */
  function LabelName(s: AppointmentStatus): string {
    match s
    case Pending => "Pending"
    case Confirmed => "Confirmed"
    case InProgress => "In Progress"
    case Completed => "Completed"
    case Cancelled => "Cancelled"
    case NoShow => "No Show"
  }

  lemma LabelOf(s: AppointmentStatus)
    ensures ConfigOf(s).labelText == LabelName(s)
  {
  }

  /** The labels differ in their fourth character. */
  lemma LabelNameInjective(a: AppointmentStatus, b: AppointmentStatus)
    requires LabelName(a) == LabelName(b)
    ensures a == b
  {
    assert LabelName(a)[3] == LabelName(b)[3];
  }

  /** Distinct statuses are styled distinctly (their labels differ). */
  lemma ConfigOfInjective(a: AppointmentStatus, b: AppointmentStatus)
    requires ConfigOf(a) == ConfigOf(b)
    ensures a == b
  {
    LabelOf(a);
    LabelOf(b);
    LabelNameInjective(a, b);
  }

  // ---------------------------------------------------------------- event transform

  /** An `appointment_calendar` view row; every column is nullable. */
  datatype AppointmentRow = AppointmentRow(
    appointment_date: Option<string>,
    appointment_number: Option<string>,
    bundle_name: Option<string>,
    client_name: Option<string>,
    client_phone: Option<string>,
    duration_minutes: Option<int>,
    end_time: Option<string>,
    final_price: Option<int>,
    id: Option<string>,
    quoted_price: Option<int>,
    service_name: Option<string>,
    start_time: Option<string>,
    status: Option<string>,
    technician_name: Option<string>)

  /** The appointment payload attached to an event; `None` stands for an undefined field. */
  datatype EventData = EventData(
    appointmentNumber: string,
    clientName: string,
    clientPhone: string,
    status: string,
    serviceName: Option<string>,
    bundleName: Option<string>,
    quotedPrice: Option<int>,
    finalPrice: Option<int>,
    technicianName: Option<string>)

  datatype CalendarEvent = CalendarEvent(
    id: string,
    start: string,
    end: string,
    text: string,
    resource: Option<string>,
    data: EventData)

  const UnknownService := "Unknown Service"
  const WalkInClient := "Walk-in Client"

  /** The guard of `transformToCalendarEvent`: id, date, start and end are all non-empty. */
  predicate Complete(a: AppointmentRow) {
    Truthy(a.id) && Truthy(a.appointment_date) && Truthy(a.start_time) && Truthy(a.end_time)
  }

  /** The displayed service: the service name, else the bundle name, else a placeholder. */
  function ServiceNameOf(a: AppointmentRow): (r: string)
    ensures r != ""
    ensures Truthy(a.service_name) ==> r == a.service_name.value
    ensures !Truthy(a.service_name) && Truthy(a.bundle_name) ==> r == a.bundle_name.value
    ensures !Truthy(a.service_name) && !Truthy(a.bundle_name) ==> r == UnknownService
  {
    OrElse(a.service_name, OrElse(a.bundle_name, UnknownService))
  }

  /** The displayed client: the client name, else the walk-in placeholder. */
  function ClientNameOf(a: AppointmentRow): (r: string)
    ensures r != ""
    ensures Truthy(a.client_name) ==> r == a.client_name.value
    ensures !Truthy(a.client_name) ==> r == WalkInClient
  {
    OrElse(a.client_name, WalkInClient)
  }

  /** `transformToCalendarEvent`: `None` for an incomplete row, otherwise the event. */
  function TransformToCalendarEvent(a: AppointmentRow, technicianId: Option<string>): (r: Option<CalendarEvent>)
    ensures r.None? <==> !Complete(a)
    ensures r.Some? ==> r.value.id == a.id.value && r.value.resource == technicianId
    ensures r.Some? ==> r.value.start == a.appointment_date.value + "T" + a.start_time.value
    ensures r.Some? ==> r.value.end == a.appointment_date.value + "T" + a.end_time.value
    ensures r.Some? ==> r.value.text == ClientNameOf(a) + " - " + ServiceNameOf(a)
    ensures r.Some? ==> r.value.data.clientName == ClientNameOf(a)
    ensures r.Some? ==> r.value.data.status == OrElse(a.status, "pending")
    ensures r.Some? ==> r.value.data.quotedPrice == (if TruthyNum(a.quoted_price) then a.quoted_price else None)
    ensures r.Some? ==> r.value.data.finalPrice == (if TruthyNum(a.final_price) then a.final_price else None)
    ensures r.Some? ==> r.value.data.appointmentNumber == (if Truthy(a.appointment_number) then a.appointment_number.value else "")
    ensures r.Some? ==> r.value.data.clientPhone == (if Truthy(a.client_phone) then a.client_phone.value else "")
    ensures r.Some? ==> r.value.data.serviceName == (if Truthy(a.service_name) then a.service_name else None)
    ensures r.Some? ==> r.value.data.bundleName == (if Truthy(a.bundle_name) then a.bundle_name else None)
    ensures r.Some? ==> r.value.data.technicianName == (if Truthy(a.technician_name) then a.technician_name else None)
  {
    if !Complete(a) then None
    else
      var date := a.appointment_date.value;
      var clientName := ClientNameOf(a);
      Some(CalendarEvent(
        a.id.value,
        date + "T" + a.start_time.value,
        date + "T" + a.end_time.value,
        clientName + " - " + ServiceNameOf(a),
        technicianId,
        EventData(
          OrElse(a.appointment_number, ""),
          clientName,
          OrElse(a.client_phone, ""),
          OrElse(a.status, "pending"),
          OrNull(a.service_name),
          OrNull(a.bundle_name),
          NumOrNull(a.quoted_price),
          NumOrNull(a.final_price),
          OrNull(a.technician_name))))
  }

  /**
   * When neither the date nor the time contains a 'T' (the case for "yyyy-MM-dd"
   * and "HH:mm:ss" columns), the event's start reads back as the date and the time.
   */
  lemma EventStartReadsBack(a: AppointmentRow, technicianId: Option<string>)
    requires Complete(a)
    requires 'T' !in a.appointment_date.value && 'T' !in a.start_time.value && 'T' !in a.end_time.value
    ensures var e := TransformToCalendarEvent(a, technicianId).value;
      Split(e.start, 'T') == [a.appointment_date.value, a.start_time.value]
      && Split(e.end, 'T') == [a.appointment_date.value, a.end_time.value]
  {
    SplitAroundSeparator(a.appointment_date.value, a.start_time.value, 'T');
    SplitAroundSeparator(a.appointment_date.value, a.end_time.value, 'T');
  }

  /** An event whose row has no usable status is drawn with the pending styling. */
  lemma MissingStatusIsPending(a: AppointmentRow, technicianId: Option<string>)
    requires Complete(a) && !Truthy(a.status)
    ensures StatusInfo(TransformToCalendarEvent(a, technicianId).value.data.status) == ConfigOf(Pending)
  {
    assert StatusName(Pending) == "pending";
  }

  /** An event's status styling is that of the row's status column when it names a status. */
  lemma EventStatusStyling(a: AppointmentRow, technicianId: Option<string>, s: AppointmentStatus)
    requires Complete(a) && a.status == Some(StatusName(s))
    ensures StatusInfo(TransformToCalendarEvent(a, technicianId).value.data.status) == ConfigOf(s)
  {
    assert StatusName(s) != "";
  }

  // ---------------------------------------------------------------- list transform

  /** `useAppointmentTransform`: map every row through the transform and drop the nulls. */
  function TransformAll(rows: seq<AppointmentRow>, technicianId: Option<string>): (r: seq<CalendarEvent>)
    ensures |r| <= |rows|
  {
    if rows == [] then [] else EventsOf(rows[0], technicianId) + TransformAll(rows[1..], technicianId)
  }

  /** The events one row contributes: its event, or none when it is incomplete. */
  function EventsOf(row: AppointmentRow, technicianId: Option<string>): seq<CalendarEvent> {
    match TransformToCalendarEvent(row, technicianId)
    case Some(e) => [e]
    case None => []
  }

  /** The transform of a concatenation is the concatenation of the transforms (input order is kept). */
  lemma {:induction false} TransformAllAppend(a: seq<AppointmentRow>, b: seq<AppointmentRow>, technicianId: Option<string>)
    ensures TransformAll(a + b, technicianId) == TransformAll(a, technicianId) + TransformAll(b, technicianId)
  {
    if a == [] {
      assert a + b == b;
    } else {
      assert (a + b)[0] == a[0];
      assert (a + b)[1..] == a[1..] + b;
      TransformAllAppend(a[1..], b, technicianId);
    }
  }

  /** Every event comes from some complete row, and every complete row yields its event. */
  lemma {:induction false} TransformAllMembers(rows: seq<AppointmentRow>, technicianId: Option<string>, e: CalendarEvent)
    ensures e in TransformAll(rows, technicianId)
      <==> exists i :: 0 <= i < |rows| && TransformToCalendarEvent(rows[i], technicianId) == Some(e)
  {
    if rows != [] {
      TransformAllMembers(rows[1..], technicianId, e);
      if e in TransformAll(rows[1..], technicianId) {
        var i :| 0 <= i < |rows[1..]| && TransformToCalendarEvent(rows[1..][i], technicianId) == Some(e);
        assert rows[i + 1] == rows[1..][i];
      }
      if exists i :: 0 <= i < |rows| && TransformToCalendarEvent(rows[i], technicianId) == Some(e) {
        var i :| 0 <= i < |rows| && TransformToCalendarEvent(rows[i], technicianId) == Some(e);
        if i > 0 {
          assert rows[1..][i - 1] == rows[i];
        }
      }
    }
  }

  /** Exactly the incomplete rows are dropped: when none is incomplete, no row is lost. */
  lemma {:induction false} TransformAllComplete(rows: seq<AppointmentRow>, technicianId: Option<string>)
    requires forall i :: 0 <= i < |rows| ==> Complete(rows[i])
    ensures |TransformAll(rows, technicianId)| == |rows|
  {
    if rows != [] {
      TransformAllComplete(rows[1..], technicianId);
    }
  }

  /** Every event of the list is placed on the given technician's resource. */
  lemma {:induction false} TransformAllResource(rows: seq<AppointmentRow>, technicianId: Option<string>)
    ensures forall k :: 0 <= k < |TransformAll(rows, technicianId)| ==> TransformAll(rows, technicianId)[k].resource == technicianId
  {
    if rows != [] {
      TransformAllResource(rows[1..], technicianId);
    }
  }

  // ---------------------------------------------------------------- durations

  /** `formatDuration` for a whole number of minutes between two times. */
  function FormatDuration(minutes: int): (r: string)
    ensures minutes < 60 ==> EndsWith(r, "min") && ' ' !in r
    ensures minutes >= 60 && minutes % 60 == 0 ==> EndsWith(r, "h") && ' ' !in r
    ensures minutes >= 60 && minutes % 60 > 0 ==> EndsWith(r, "min") && ' ' in r
  {
    if minutes < 60 then IntToString(minutes) + "min"
    else
      var hours := minutes / 60;
      var remaining := minutes % 60;
      if remaining > 0 then NatToString(hours) + "h " + NatToString(remaining) + "min"
      else NatToString(hours) + "h"
  }

  /** A non-empty digit string's value. */
  function ParseNat(s: string): (r: Option<nat>)
    ensures r.Some? <==> |s| >= 1 && AllDigits(s)
  {
    if |s| >= 1 && AllDigits(s) then Some(DigitsValue(s)) else None
  }

  /** A decimal integer with an optional leading minus sign. */
  function ParseInt(s: string): Option<int> {
    if |s| >= 1 && s[0] == '-' then
      match ParseNat(s[1..])
      case Some(n) => Some(-(n as int))
      case None => None
    else
      match ParseNat(s)
      case Some(n) => Some(n)
      case None => None
  }

  /** Reads a duration label back as minutes: "<m>min", "<h>h" or "<h>h <r>min". */
  function ParseDuration(s: string): Option<int> {
    var parts := Split(s, ' ');
    if |parts| == 1 then
      var p := parts[0];
      if EndsWith(p, "min") then ParseInt(p[..|p| - 3])
      else if EndsWith(p, "h") then
        match ParseNat(p[..|p| - 1])
        case Some(h) => Some(h * 60)
        case None => None
      else None
    else if |parts| == 2 && EndsWith(parts[0], "h") && EndsWith(parts[1], "min") then
      match (ParseNat(parts[0][..|parts[0]| - 1]), ParseNat(parts[1][..|parts[1]| - 3]))
      case (Some(h), Some(r)) => Some(h * 60 + r)
      case _ => None
    else None
  }

  lemma ParseIntOfString(i: int)
    ensures ParseInt(IntToString(i)) == Some(i)
  {
    var s := IntToString(i);
    if i < 0 {
      var n := NatToString(-i);
      assert s == "-" + n && s[0] == '-' && s[1..] == n;
      DigitsOfNat(-i);
      assert ParseNat(n) == Some(-i);
    } else {
      assert s == NatToString(i);
      DigitsOfNat(i);
      assert IsDigit(s[0]) && s[0] != '-';
      assert ParseNat(s) == Some(i);
    }
  }

  lemma DigitsHaveNoSpace(s: string)
    requires AllDigits(s)
    ensures ' ' !in s
  {
  }

  lemma SplitWithoutSeparator(s: string, sep: char)
    requires sep !in s
    ensures Split(s, sep) == [s]
  {
  }

  lemma MinutesLabelReadsBack(minutes: int)
    requires minutes < 60
    ensures ParseDuration(FormatDuration(minutes)) == Some(minutes)
  {
    var s := FormatDuration(minutes);
    var n := IntToString(minutes);
    assert s == n + "min";
    if minutes < 0 {
      assert n == "-" + NatToString(-minutes);
      DigitsHaveNoSpace(NatToString(-minutes));
    } else {
      DigitsHaveNoSpace(n);
    }
    assert ' ' !in s;
    SplitWithoutSeparator(s, ' ');
    assert s[..|s| - 3] == n;
    ParseIntOfString(minutes);
  }

  lemma HoursLabelReadsBack(minutes: int)
    requires minutes >= 60 && minutes % 60 == 0
    ensures ParseDuration(FormatDuration(minutes)) == Some(minutes)
  {
    var s := FormatDuration(minutes);
    var h := NatToString(minutes / 60);
    DigitsHaveNoSpace(h);
    DigitsOfNat(minutes / 60);
    assert s == h + "h";
    assert ' ' !in s;
    SplitWithoutSeparator(s, ' ');
    assert !EndsWith(s, "min") by {
      assert s[|s| - 1] == 'h';
    }
    assert s[..|s| - 1] == h;
    assert ParseDuration(s) == Some((minutes / 60) * 60);
    assert minutes == (minutes / 60) * 60 + minutes % 60;
  }

  lemma HoursMinutesLabelReadsBack(minutes: int)
    requires minutes >= 60 && minutes % 60 > 0
    ensures ParseDuration(FormatDuration(minutes)) == Some(minutes)
  {
    HoursMinutesReadBack(minutes / 60, minutes % 60);
  }

  /** "<h>h <r>min" reads back as h hours and r minutes. */
  lemma HoursMinutesReadBack(hours: nat, remaining: nat)
    ensures ParseDuration(NatToString(hours) + "h " + NatToString(remaining) + "min") == Some(hours * 60 + remaining)
  {
    DigitsOfNat(hours);
    DigitsOfNat(remaining);
    HoursMinutesParts(NatToString(hours), NatToString(remaining));
    TwoPartDuration(NatToString(hours) + "h " + NatToString(remaining) + "min", hours, remaining);
  }

  /** A label split at its space into "<h>h" and "<r>min" reads as h hours plus r minutes. */
  lemma TwoPartDuration(s: string, hours: nat, remaining: nat)
    requires Split(s, ' ') == [NatToString(hours) + "h", NatToString(remaining) + "min"]
    ensures ParseDuration(s) == Some(hours * 60 + remaining)
  {
    HoursPart(hours);
    MinutesPart(remaining);
  }

  /** Digits without spaces split at the one space in "<h>h <r>min". */
  lemma HoursMinutesParts(h: string, r: string)
    requires AllDigits(h) && AllDigits(r)
    ensures Split(h + "h " + r + "min", ' ') == [h + "h", r + "min"]
  {
    var left, right := h + "h", r + "min";
    assert h + "h " + r + "min" == left + [' '] + right;
    SplitAroundSeparator(left, right, ' ');
  }

  /** "<h>h" ends in `h` and the digits before it read as `hours`. */
  lemma HoursPart(hours: nat)
    ensures var left := NatToString(hours) + "h";
      EndsWith(left, "h") && ParseNat(left[..|left| - 1]) == Some(hours)
  {
    var h := NatToString(hours);
    DigitsOfNat(hours);
    assert (h + "h")[..|h|] == h;
  }

  /** "<r>min" ends in `min` and the digits before it read as `remaining`. */
  lemma MinutesPart(remaining: nat)
    ensures var right := NatToString(remaining) + "min";
      EndsWith(right, "min") && ParseNat(right[..|right| - 3]) == Some(remaining)
  {
    var r := NatToString(remaining);
    DigitsOfNat(remaining);
    assert (r + "min")[..|r|] == r;
  }

  /** The duration label is read back as the number of minutes it renders. */
  lemma FormatDurationRoundTrip(minutes: int)
    ensures ParseDuration(FormatDuration(minutes)) == Some(minutes)
  {
    if minutes < 60 {
      MinutesLabelReadsBack(minutes);
    } else if minutes % 60 == 0 {
      HoursLabelReadsBack(minutes);
    } else {
      HoursMinutesLabelReadsBack(minutes);
    }
  }

  /** Different durations get different labels. */
  lemma FormatDurationInjective(a: int, b: int)
    requires FormatDuration(a) == FormatDuration(b)
    ensures a == b
  {
    FormatDurationRoundTrip(a);
    FormatDurationRoundTrip(b);
  }
}
