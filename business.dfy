/**
 * The business store: the weekly availability schedule (grouping by weekday,
 * the first active row of a day, the set of enabled days), the settings
 * getters with their defaults, and the patch `saveSettings` sends.
 */
module Business {
  import opened Wrappers
  import opened Strings
  import opened Sorting

  /** An `availability_schedules` row; `day_of_week` and `is_active` may be null. */
  datatype Schedule = Schedule(
    id: string,
    day_of_week: Option<int>,
    is_active: Option<bool>,
    start_time: string,
    end_time: string,
    technician_id: Option<string>)

  /** A `business_settings` row. */
  datatype BusinessSettings = BusinessSettings(
    id: string,
    advance_booking_days: Option<int>,
    business_name: Option<string>,
    is_accepting_bookings: Option<bool>,
    slot_duration: Option<int>,
    technician_id: Option<string>)

  /** The argument of `saveSettings`; `None` is an omitted (undefined) option. */
  datatype SaveOptions = SaveOptions(
    isAcceptingBookings: Option<bool>,
    slotDuration: Option<int>,
    advanceBookingDays: Option<int>)

  /** A value in a `business_settings` update. */
  datatype SettingValue = BoolValue(b: bool) | IntValue(n: int)

  const DefaultAcceptingBookings := true
  const DefaultSlotDuration := 30
  const DefaultAdvanceBookingDays := 30
  /** PostgREST's code for "no rows", which `fetchBusinessSettings` does not treat as an error. */
  const NoRowsCode := "PGRST116"

  /** `s.is_active` is truthy. */
  predicate IsActive(s: Schedule) {
    s.is_active == Some(true)
  }

  /** `s.day_of_week === d && s.is_active`. */
  predicate ActiveOn(s: Schedule, d: int) {
    s.day_of_week == Some(d) && IsActive(s)
  }

  /** `schedules.filter(s => s.day_of_week === d && s.is_active)`. */
  function ActiveOnDay(schedules: seq<Schedule>, d: int): (r: seq<Schedule>)
    ensures |r| <= |schedules|
    ensures forall i :: 0 <= i < |r| ==> ActiveOn(r[i], d)
    ensures (forall i :: 0 <= i < |schedules| ==> ActiveOn(schedules[i], d)) ==> r == schedules
  {
    if schedules == [] then []
    else (if ActiveOn(schedules[0], d) then [schedules[0]] else []) + ActiveOnDay(schedules[1..], d)
  }

  /** The bucket of a concatenation is the concatenation of the buckets: list order is kept. */
  lemma {:induction false} ActiveOnDayAppend(a: seq<Schedule>, b: seq<Schedule>, d: int)
    ensures ActiveOnDay(a + b, d) == ActiveOnDay(a, d) + ActiveOnDay(b, d)
  {
    if a == [] {
      assert a + b == b;
    } else {
      assert (a + b)[0] == a[0];
      assert (a + b)[1..] == a[1..] + b;
      ActiveOnDayAppend(a[1..], b, d);
    }
  }

  /** A row is in the bucket of d exactly when it is an active row of d. */
  lemma {:induction false} ActiveOnDayMembers(schedules: seq<Schedule>, d: int, s: Schedule)
    ensures s in ActiveOnDay(schedules, d) <==> s in schedules && ActiveOn(s, d)
  {
    if schedules != [] {
      ActiveOnDayMembers(schedules[1..], d, s);
      assert schedules == [schedules[0]] + schedules[1..];
    }
  }

  /** `schedules.some(s => s.day_of_week === d && s.is_active)`. */
  predicate AnyActiveOn(schedules: seq<Schedule>, d: int) {
    schedules != [] && (ActiveOn(schedules[0], d) || AnyActiveOn(schedules[1..], d))
  }

  /** `schedules.find(s => s.day_of_week === d && s.is_active) || null`. */
  function FirstActiveOn(schedules: seq<Schedule>, d: int): (r: Option<Schedule>)
    ensures r.Some? ==> ActiveOn(r.value, d) && r.value in schedules
    ensures r.None? <==> forall i :: 0 <= i < |schedules| ==> !ActiveOn(schedules[i], d)
  {
    if schedules == [] then None
    else if ActiveOn(schedules[0], d) then Some(schedules[0])
    else FirstActiveOn(schedules[1..], d)
  }

  /** `some` holds exactly when some row is an active row of the day. */
  lemma {:induction false} AnyActiveOnExists(schedules: seq<Schedule>, d: int)
    ensures AnyActiveOn(schedules, d) <==> exists i :: 0 <= i < |schedules| && ActiveOn(schedules[i], d)
  {
    if schedules != [] {
      AnyActiveOnExists(schedules[1..], d);
      if exists i :: 0 <= i < |schedules| && ActiveOn(schedules[i], d) {
        var i :| 0 <= i < |schedules| && ActiveOn(schedules[i], d);
        if i > 0 {
          assert ActiveOn(schedules[1..][i - 1], d);
        }
      }
      if AnyActiveOn(schedules[1..], d) {
        var i :| 0 <= i < |schedules[1..]| && ActiveOn(schedules[1..][i], d);
        assert ActiveOn(schedules[i + 1], d);
      }
    }
  }

  /** A day is enabled exactly when its bucket is non-empty. */
  lemma {:induction false} EnabledIffBucket(schedules: seq<Schedule>, d: int)
    ensures AnyActiveOn(schedules, d) <==> ActiveOnDay(schedules, d) != []
  {
    if schedules != [] {
      EnabledIffBucket(schedules[1..], d);
    }
  }

  /** The default hours are the head of the day's bucket, and null exactly when the day is not enabled. */
  lemma {:induction false} DefaultHoursIsFirst(schedules: seq<Schedule>, d: int)
    ensures FirstActiveOn(schedules, d).None? <==> !AnyActiveOn(schedules, d)
    ensures FirstActiveOn(schedules, d)
         == (if ActiveOnDay(schedules, d) == [] then None else Some(ActiveOnDay(schedules, d)[0]))
    ensures FirstActiveOn(schedules, d).Some? ==> ActiveOn(FirstActiveOn(schedules, d).value, d)
  {
    if schedules != [] {
      DefaultHoursIsFirst(schedules[1..], d);
      EnabledIffBucket(schedules[1..], d);
    }
  }

  /** No row before the default hours is an active row of that day. */
  lemma {:induction false} DefaultHoursNoEarlier(schedules: seq<Schedule>, d: int, k: nat)
    requires k < |schedules| && ActiveOn(schedules[k], d)
    ensures FirstActiveOn(schedules, d).Some?
    ensures exists j :: (0 <= j <= k && FirstActiveOn(schedules, d) == Some(schedules[j])
      && forall i :: 0 <= i < j ==> !ActiveOn(schedules[i], d))
  {
    if !ActiveOn(schedules[0], d) {
      DefaultHoursNoEarlier(schedules[1..], d, k - 1);
      var j :| (0 <= j <= k - 1 && FirstActiveOn(schedules[1..], d) == Some(schedules[1..][j])
        && forall i :: 0 <= i < j ==> !ActiveOn(schedules[1..][i], d));
      assert FirstActiveOn(schedules, d) == Some(schedules[j + 1]);
      forall i | 0 <= i < j + 1
        ensures !ActiveOn(schedules[i], d)
      {
        if i > 0 {
          assert schedules[i] == schedules[1..][i - 1];
        }
      }
    } else {
      assert FirstActiveOn(schedules, d) == Some(schedules[0]);
    }
  }

  // ---------------------------------------------------------------- enabled days

  /** Some active row has this `day_of_week` (null included, as `Set.add(null)` keeps it). */
  ghost predicate ActiveDay(schedules: seq<Schedule>, x: Option<int>) {
    exists j :: 0 <= j < |schedules| && IsActive(schedules[j]) && schedules[j].day_of_week == x
  }

  /** The string the default `sort` compares a day value by: `String(null)` or the decimal integer. */
  function SortKey(x: Option<int>): string {
    if x.None? then "null" else IntToString(x.value)
  }

  /** The default comparator of `Array.prototype.sort` (section 23.1.3.30.2 of ECMA-262) on day values. */
  predicate DefaultSortLe(a: Option<int>, b: Option<int>) {
    LexLe(SortKey(a), SortKey(b))
  }

  lemma DefaultSortIsPreorder()
    ensures TotalPreorder(DefaultSortLe)
  {
    forall a, b
      ensures DefaultSortLe(a, b) || DefaultSortLe(b, a)
    {
      LexLeTotal(SortKey(a), SortKey(b));
    }
    forall a, b, c | DefaultSortLe(a, b) && DefaultSortLe(b, c)
      ensures DefaultSortLe(a, c)
    {
      LexLeTransitive(SortKey(a), SortKey(b), SortKey(c));
    }
  }

  /** On the weekdays 0..6 (indeed on 0..9) the string order is the numeric order. */
  lemma DefaultSortNumericOnWeekdays(a: int, b: int)
    requires 0 <= a <= 9 && 0 <= b <= 9
    ensures DefaultSortLe(Some(a), Some(b)) <==> a <= b
  {
    var ka, kb := [DigitChar(a)], [DigitChar(b)];
    assert SortKey(Some(a)) == ka && SortKey(Some(b)) == kb;
    assert DigitChar(a) as int == '0' as int + a && DigitChar(b) as int == '0' as int + b;
    assert ka[1..] == [] && kb[1..] == [];
    assert LexLe(ka, kb) == (if ka[0] != kb[0] then ka[0] < kb[0] else LexLe(ka[1..], kb[1..]));
  }

  /** Two-digit values break the numeric order: 10 sorts before 9. */
  lemma DefaultSortNotNumeric()
    ensures DefaultSortLe(Some(10), Some(9)) && !DefaultSortLe(Some(9), Some(10))
  {
    assert SortKey(Some(9)) == "9";
    assert DigitChar(1) == '1' && DigitChar(0) == '0' && DigitChar(9) == '9';
    assert SortKey(Some(10)) == NatToString(1) + [DigitChar(0)] == "10";
  }

  /** A list sorted by the default order and holding only weekdays is in ascending numeric order. */
  lemma SortedWeekdaysAscending(r: seq<Option<int>>)
    requires SortedBy(r, DefaultSortLe)
    requires forall i :: 0 <= i < |r| ==> r[i].Some? && 0 <= r[i].value <= 6
    ensures forall i, j :: 0 <= i < j < |r| ==> r[i].value <= r[j].value
  {
    forall i, j | 0 <= i < j < |r|
      ensures r[i].value <= r[j].value
    {
      DefaultSortNumericOnWeekdays(r[i].value, r[j].value);
    }
  }

  // ---------------------------------------------------------------- patch

  /** The update `saveSettings` sends: one column per option that is not undefined. */
  function SettingsPatch(o: SaveOptions): (patch: map<string, SettingValue>)
    ensures patch.Keys <= {"is_accepting_bookings", "slot_duration", "advance_booking_days"}
    ensures "is_accepting_bookings" in patch <==> o.isAcceptingBookings.Some?
    ensures "slot_duration" in patch <==> o.slotDuration.Some?
    ensures "advance_booking_days" in patch <==> o.advanceBookingDays.Some?
    ensures o.isAcceptingBookings.Some? ==> patch["is_accepting_bookings"] == BoolValue(o.isAcceptingBookings.value)
    ensures o.slotDuration.Some? ==> patch["slot_duration"] == IntValue(o.slotDuration.value)
    ensures o.advanceBookingDays.Some? ==> patch["advance_booking_days"] == IntValue(o.advanceBookingDays.value)
  {
    var m0: map<string, SettingValue> := map[];
    var m1 := if o.isAcceptingBookings.Some? then m0["is_accepting_bookings" := BoolValue(o.isAcceptingBookings.value)] else m0;
    var m2 := if o.slotDuration.Some? then m1["slot_duration" := IntValue(o.slotDuration.value)] else m1;
    if o.advanceBookingDays.Some? then m2["advance_booking_days" := IntValue(o.advanceBookingDays.value)] else m2
  }

  /** The row a successful update returns: the patched columns overwritten, the others kept. */
  function ApplyPatch(row: BusinessSettings, patch: map<string, SettingValue>): BusinessSettings {
    row.(
      is_accepting_bookings :=
        if "is_accepting_bookings" in patch && patch["is_accepting_bookings"].BoolValue?
        then Some(patch["is_accepting_bookings"].b) else row.is_accepting_bookings,
      slot_duration :=
        if "slot_duration" in patch && patch["slot_duration"].IntValue?
        then Some(patch["slot_duration"].n) else row.slot_duration,
      advance_booking_days :=
        if "advance_booking_days" in patch && patch["advance_booking_days"].IntValue?
        then Some(patch["advance_booking_days"].n) else row.advance_booking_days)
  }

  /** `settings?.field ?? default`. */
  function AcceptingBookingsOf(settings: Option<BusinessSettings>): bool {
    if settings.Some? && settings.value.is_accepting_bookings.Some? then settings.value.is_accepting_bookings.value
    else DefaultAcceptingBookings
  }

  function SlotDurationOf(settings: Option<BusinessSettings>): int {
    if settings.Some? && settings.value.slot_duration.Some? then settings.value.slot_duration.value
    else DefaultSlotDuration
  }

  function AdvanceBookingDaysOf(settings: Option<BusinessSettings>): int {
    if settings.Some? && settings.value.advance_booking_days.Some? then settings.value.advance_booking_days.value
    else DefaultAdvanceBookingDays
  }

  /** Without settings, or with null columns, the getters give true, 30 and 30. */
  lemma GetterDefaults(row: BusinessSettings)
    ensures AcceptingBookingsOf(None) && SlotDurationOf(None) == 30 && AdvanceBookingDaysOf(None) == 30
    ensures row.is_accepting_bookings.None? ==> AcceptingBookingsOf(Some(row)) == true
    ensures row.slot_duration.None? ==> SlotDurationOf(Some(row)) == 30
    ensures row.advance_booking_days.None? ==> AdvanceBookingDaysOf(Some(row)) == 30
  {
  }

  /** `??` keeps falsy stored values: false and 0 are returned as stored, not replaced by the default. */
  lemma GettersKeepFalsy(row: BusinessSettings)
    requires row.is_accepting_bookings == Some(false) && row.slot_duration == Some(0) && row.advance_booking_days == Some(0)
    ensures !AcceptingBookingsOf(Some(row)) && SlotDurationOf(Some(row)) == 0 && AdvanceBookingDaysOf(Some(row)) == 0
  {
  }

  /** After a save, each getter reads back the saved option, or the earlier value where it was omitted. */
  lemma SavedSettingsReadBack(row: BusinessSettings, o: SaveOptions)
    ensures var saved := Some(ApplyPatch(row, SettingsPatch(o)));
      && AcceptingBookingsOf(saved) == (if o.isAcceptingBookings.Some? then o.isAcceptingBookings.value else AcceptingBookingsOf(Some(row)))
      && SlotDurationOf(saved) == (if o.slotDuration.Some? then o.slotDuration.value else SlotDurationOf(Some(row)))
      && AdvanceBookingDaysOf(saved) == (if o.advanceBookingDays.Some? then o.advanceBookingDays.value else AdvanceBookingDaysOf(Some(row)))
  {
  }

  // ---------------------------------------------------------------- store

  class BusinessStore {
    var settings: Option<BusinessSettings>
    var schedules: seq<Schedule>

    constructor ()
      ensures settings == None && schedules == []
    {
      settings := None;
      schedules := [];
    }

    /** Getter `availabilityByDay`: keys 0..6, each holding its day's active rows in list order. */
    method AvailabilityByDay() returns (grouped: map<int, seq<Schedule>>)
      ensures forall d :: d in grouped <==> 0 <= d < 7
      ensures forall d :: 0 <= d < 7 ==> grouped[d] == ActiveOnDay(schedules, d)
    {
      grouped := map[];
      for i := 0 to 7
        invariant forall d :: d in grouped <==> 0 <= d < i
        invariant forall d :: 0 <= d < i ==> grouped[d] == ActiveOnDay(schedules, d)
      {
        grouped := grouped[i := ActiveOnDay(schedules, i)];
      }
    }

    /** Getter `isDayEnabled`. */
    predicate IsDayEnabled(d: int)
      reads this
      ensures IsDayEnabled(d) <==> exists i :: 0 <= i < |schedules| && ActiveOn(schedules[i], d)
    {
      AnyActiveOnExists(schedules, d);
      AnyActiveOn(schedules, d)
    }

    /** Getter `getDefaultHoursForDay`. */
    function GetDefaultHoursForDay(d: int): (r: Option<Schedule>)
      reads this
      ensures r.None? <==> !IsDayEnabled(d)
      ensures r.Some? ==> ActiveOn(r.value, d) && r.value in schedules
      ensures r == (if ActiveOnDay(schedules, d) == [] then None else Some(ActiveOnDay(schedules, d)[0]))
    {
      DefaultHoursIsFirst(schedules, d);
      FirstActiveOn(schedules, d)
    }

    /** Getter `enabledDays`: the distinct active day values, then the default `sort`. */
    method EnabledDays() returns (r: seq<Option<int>>)
      ensures forall x :: multiset(r)[x] == (if ActiveDay(schedules, x) then 1 else 0)
      ensures SortedBy(r, DefaultSortLe)
    {
      var days: seq<Option<int>> := [];
      for i := 0 to |schedules|
        invariant forall x :: multiset(days)[x] == (if ActiveDay(schedules[..i], x) then 1 else 0)
      {
        var s := schedules[i];
        assert forall x :: ActiveDay(schedules[..i + 1], x) <==> ActiveDay(schedules[..i], x) || (IsActive(s) && s.day_of_week == x) by {
          forall x
            ensures ActiveDay(schedules[..i + 1], x) <==> ActiveDay(schedules[..i], x) || (IsActive(s) && s.day_of_week == x)
          {
            if ActiveDay(schedules[..i + 1], x) {
              var j :| 0 <= j < i + 1 && IsActive(schedules[..i + 1][j]) && schedules[..i + 1][j].day_of_week == x;
              if j < i {
                assert schedules[..i][j] == schedules[..i + 1][j];
              }
            }
            if ActiveDay(schedules[..i], x) {
              var j :| 0 <= j < i && IsActive(schedules[..i][j]) && schedules[..i][j].day_of_week == x;
              assert schedules[..i + 1][j] == schedules[..i][j];
            }
            if IsActive(s) && s.day_of_week == x {
              assert schedules[..i + 1][i] == s;
            }
          }
        }
        if IsActive(s) && s.day_of_week !in days {
          days := days + [s.day_of_week];
        }
      }
      assert schedules[..|schedules|] == schedules;
      DefaultSortIsPreorder();
      r := SortBy(days, DefaultSortLe);
    }

    /** Getter `isAcceptingBookings`. */
    function IsAcceptingBookings(): (r: bool)
      reads this
      ensures settings.Some? && settings.value.is_accepting_bookings.Some? ==> r == settings.value.is_accepting_bookings.value
      ensures settings.None? || settings.value.is_accepting_bookings.None? ==> r
    {
      AcceptingBookingsOf(settings)
    }

    /** Getter `slotDuration`. */
    function SlotDuration(): (r: int)
      reads this
      ensures settings.Some? && settings.value.slot_duration.Some? ==> r == settings.value.slot_duration.value
      ensures settings.None? || settings.value.slot_duration.None? ==> r == 30
    {
      SlotDurationOf(settings)
    }

    /** Getter `advanceBookingDays`. */
    function AdvanceBookingDays(): (r: int)
      reads this
      ensures settings.Some? && settings.value.advance_booking_days.Some? ==> r == settings.value.advance_booking_days.value
      ensures settings.None? || settings.value.advance_booking_days.None? ==> r == 30
    {
      AdvanceBookingDaysOf(settings)
    }

    /** `fetchBusinessSettings` after the query: any error but "no rows" throws, else the row (or null) is stored. */
    method FetchBusinessSettings(data: Option<BusinessSettings>, errorCode: Option<string>)
      returns (r: Result<Option<BusinessSettings>>)
      modifies this`settings
      ensures errorCode.Some? && errorCode.value != NoRowsCode ==> r.Err? && settings == old(settings)
      ensures !(errorCode.Some? && errorCode.value != NoRowsCode) ==> r == Ok(data) && settings == data
    {
      if errorCode.Some? && errorCode.value != NoRowsCode {
        return Err(errorCode.value);
      }
      settings := data;
      r := Ok(data);
    }

    /** `fetchAvailabilitySchedules` after the query: an error throws, else `data || []` is stored. */
    method FetchAvailabilitySchedules(data: Option<seq<Schedule>>, error: Option<string>)
      returns (r: Result<seq<Schedule>>)
      modifies this`schedules
      ensures error.Some? ==> r == Err(error.value) && schedules == old(schedules)
      ensures error.None? ==> schedules == (if data.Some? then data.value else []) && r == Ok(schedules)
    {
      if error.Some? {
        return Err(error.value);
      }
      schedules := if data.Some? then data.value else [];
      r := Ok(schedules);
    }

    /** The patch `saveSettings` builds, assigned one column at a time. */
    method SaveSettingsPatch(o: SaveOptions) returns (updateData: map<string, SettingValue>)
      ensures updateData == SettingsPatch(o)
    {
      updateData := map[];
      if o.isAcceptingBookings.Some? {
        updateData := updateData["is_accepting_bookings" := BoolValue(o.isAcceptingBookings.value)];
      }
      if o.slotDuration.Some? {
        updateData := updateData["slot_duration" := IntValue(o.slotDuration.value)];
      }
      if o.advanceBookingDays.Some? {
        updateData := updateData["advance_booking_days" := IntValue(o.advanceBookingDays.value)];
      }
    }
  }

  /** `isDayEnabled(d)` and a non-empty `availabilityByDay[d]` agree on every weekday. */
  lemma EnabledMatchesGrouping(store: BusinessStore, grouped: map<int, seq<Schedule>>, d: int)
    requires 0 <= d < 7
    requires forall e :: 0 <= e < 7 ==> e in grouped && grouped[e] == ActiveOnDay(store.schedules, e)
    ensures store.IsDayEnabled(d) <==> grouped[d] != []
  {
    EnabledIffBucket(store.schedules, d);
  }
}
