/**
 * The booking form component: its date and time predicates, the fixed
 * slot catalog, the menu of slots not yet booked with their 12-hour
 * labels, and the component state (`formData`, `status`, `bookedSlots`)
 * with the handlers that update it.
 *
 * The client reads a date as `new Date(date + 'T00:00:00')`. For ""
 * that is an invalid date, whose getters return NaN, so every comparison
 * with it is false; `LocalDate` gives None for it.
 */
module Scheduler {
  import opened Wrappers
  import opened ClockText
  import opened CivilCalendar

  // ---- date and time predicates ----

  function LocalDate(dateStr: string): (d: Option<CivilDate>)
    requires dateStr == "" || IsDateText(dateStr)
    ensures d.None? <==> dateStr == ""
    ensures d.Some? ==> IsValidDate(d.value)
  {
    if dateStr == "" then None else Some(DateOf(dateStr))
  }

  predicate IsValidDateObject(d: Option<CivilDate>) {
    d.Some? ==> IsValidDate(d.value)
  }

  /** `isWeekend`: `getDay()` is 0 (Sunday) or 6 (Saturday). */
  function IsWeekend(d: Option<CivilDate>): (r: bool)
    requires IsValidDateObject(d)
    ensures r ==> d.Some? && !(1 <= DayOfWeek(d.value) <= 5)
    ensures d.Some? && !(1 <= DayOfWeek(d.value) <= 5) ==> r
  {
    match d
    case None => false
    case Some(c) =>
      var day := DayOfWeek(c);
      day == 0 || day == 6
  }

  /** The fixed holidays as `{ m, d }` pairs with 0-based months. */
  const Holidays: seq<(nat, nat)> := [(0, 1), (6, 4), (11, 25)]

  /** `isHoliday`: `holidays.some(h => h.m === month && h.d === day)`; the year is read but not used. */
  function IsHoliday(d: Option<CivilDate>): (r: bool)
    ensures r ==> d.Some? && d.value.month in {1, 7, 12} && d.value.day in {1, 4, 25}
  {
    match d
    case None => false
    case Some(c) =>
      var year, month, day := c.year, c.month - 1, c.day;
      exists i :: 0 <= i < |Holidays| && Holidays[i].0 == month && Holidays[i].1 == day
  }

  /** The holiday list is New Year's Day, Independence Day and Christmas Day, in any year. */
  lemma IsHolidayExactly(c: CivilDate)
    ensures IsHoliday(Some(c)) <==> (c.month, c.day) in {(1, 1), (7, 4), (12, 25)}
  {
    if (c.month, c.day) == (1, 1) { assert Holidays[0] == (0, 1); }
    if (c.month, c.day) == (7, 4) { assert Holidays[1] == (6, 4); }
    if (c.month, c.day) == (12, 25) { assert Holidays[2] == (11, 25); }
  }

  /**
   * `validateTime`: false for an empty date or time, a weekend, a holiday,
   * or an hour outside [9, 17); true otherwise. Minutes and the lunch hour
   * are not examined.
   */
  function ValidateTime(dateStr: string, timeStr: string): (ok: bool)
    requires dateStr == "" || IsDateText(dateStr)
    requires timeStr == "" || IsTimeText(timeStr)
    ensures ok ==> dateStr != "" && timeStr != ""
    ensures ok ==> 1 <= DayOfWeek(DateOf(dateStr)) <= 5 && 9 <= HourOf(timeStr) < 17
    ensures ok ==> (DateOf(dateStr).month, DateOf(dateStr).day) !in {(1, 1), (7, 4), (12, 25)}
    ensures (&& dateStr != "" && timeStr != ""
             && 1 <= DayOfWeek(DateOf(dateStr)) <= 5 && 9 <= HourOf(timeStr) < 17
             && (DateOf(dateStr).month, DateOf(dateStr).day) !in {(1, 1), (7, 4), (12, 25)}) ==> ok
  {
    if dateStr == "" || timeStr == "" then false
    else
      var dateObj := LocalDate(dateStr);
      IsHolidayExactly(dateObj.value);
      if IsWeekend(dateObj) then false
      else if IsHoliday(dateObj) then false
      else
        var hours := HourOf(timeStr);
        !(hours < 9 || hours >= 17)
  }

  // ---- the slot catalog and the menu ----

  /** `allTimeSlots`. */
  const AllTimeSlots: seq<string> := [
    "09:00", "09:30", "10:00", "10:30", "11:00", "11:30",
    "13:00", "13:30", "14:00", "14:30",
    "15:00", "15:30", "16:00", "16:30"
  ]

  predicate AllTimeText(slots: seq<string>) {
    forall i :: 0 <= i < |slots| ==> IsTimeText(slots[i])
  }

  predicate StrictlyIncreasing(slots: seq<string>)
    requires AllTimeText(slots)
  {
    forall i, j :: 0 <= i < j < |slots| ==> MinuteOfDay(slots[i]) < MinuteOfDay(slots[j])
  }

  /**
   * Fourteen half-hour slots in increasing order, each with its hour in
   * [9, 17) and none in the 12 o'clock hour.
   */
  lemma CatalogShape()
    ensures |AllTimeSlots| == 14 && AllTimeText(AllTimeSlots)
    ensures StrictlyIncreasing(AllTimeSlots)
    ensures forall i :: 0 <= i < |AllTimeSlots| ==>
      9 <= HourOf(AllTimeSlots[i]) < 17 && HourOf(AllTimeSlots[i]) != 12
      && (MinuteOf(AllTimeSlots[i]) == 0 || MinuteOf(AllTimeSlots[i]) == 30)
  {
    // slot i starts 30 * i minutes after 09:00, plus the skipped hour from 13:00 on
    forall i | 0 <= i < 14
      ensures IsTimeText(AllTimeSlots[i])
      ensures MinuteOfDay(AllTimeSlots[i]) == 540 + 30 * i + (if i >= 6 then 60 else 0)
    {
    }
  }

  /** The catalog slots not in `booked`, in catalog order. */
  function Unbooked(slots: seq<string>, booked: seq<string>): (r: seq<string>)
    ensures |r| <= |slots|
    ensures forall s :: s in r <==> s in slots && s !in booked
  {
    if |slots| == 0 then []
    else
      var rest := Unbooked(slots[1..], booked);
      assert forall s :: s in slots <==> s == slots[0] || s in slots[1..];
      if slots[0] in booked then rest else [slots[0]] + rest
  }

  /** The options the time menu offers for the booked slots fetched for the date. */
  function AvailableSlots(bookedSlots: seq<string>): (menu: seq<string>)
    ensures |menu| <= |AllTimeSlots|
    ensures forall s :: s in menu <==> s in AllTimeSlots && s !in bookedSlots
  {
    Unbooked(AllTimeSlots, bookedSlots)
  }

  /** Filtering keeps the order: from an increasing catalog the menu is increasing. */
  lemma {:induction false} UnbookedKeepsOrder(slots: seq<string>, booked: seq<string>)
    requires AllTimeText(slots) && StrictlyIncreasing(slots)
    ensures AllTimeText(Unbooked(slots, booked)) && StrictlyIncreasing(Unbooked(slots, booked))
  {
    if |slots| > 0 {
      var tail := slots[1..];
      assert AllTimeText(tail);
      assert StrictlyIncreasing(tail) by {
        forall i, j | 0 <= i < j < |tail| ensures MinuteOfDay(tail[i]) < MinuteOfDay(tail[j]) {
          assert tail[i] == slots[i + 1] && tail[j] == slots[j + 1];
        }
      }
      UnbookedKeepsOrder(tail, booked);
      var rest := Unbooked(tail, booked);
      forall k | 0 <= k < |rest| ensures MinuteOfDay(slots[0]) < MinuteOfDay(rest[k]) {
        assert rest[k] in rest;
        var j :| 0 <= j < |tail| && tail[j] == rest[k];
        assert tail[j] == slots[j + 1];
      }
    }
  }

  /** The menu lists each free catalog slot once, in catalog order. */
  lemma MenuIsOrderedFreeSlots(bookedSlots: seq<string>)
    ensures AllTimeText(AvailableSlots(bookedSlots)) && StrictlyIncreasing(AvailableSlots(bookedSlots))
    ensures forall s :: s in AvailableSlots(bookedSlots) <==> s in AllTimeSlots && s !in bookedSlots
  {
    CatalogShape();
    UnbookedKeepsOrder(AllTimeSlots, bookedSlots);
  }

  lemma {:induction false} DistinctCount(s: seq<string>)
    ensures |set x | x in s| <= |s|
  {
    if |s| > 0 {
      DistinctCount(s[1..]);
      assert (set x | x in s) == (set x | x in s[1..]) + {s[0]};
    }
  }

  lemma {:induction false} DistinctElementsCount(s: seq<string>)
    requires forall i, j :: 0 <= i < j < |s| ==> s[i] != s[j]
    ensures |set x | x in s| == |s|
  {
    if |s| > 0 {
      var tail := s[1..];
      forall i, j | 0 <= i < j < |tail| ensures tail[i] != tail[j] {
        assert tail[i] == s[i + 1] && tail[j] == s[j + 1];
      }
      DistinctElementsCount(tail);
      assert s[0] !in tail;
      assert (set x | x in s) == (set x | x in tail) + {s[0]};
    }
  }

  /**
   * When the menu offers nothing, the "fully booked" gate fires: every one
   * of the fourteen distinct catalog slots appears in the booked list.
   */
  lemma EmptyMenuMeansFullGate(bookedSlots: seq<string>)
    requires AvailableSlots(bookedSlots) == []
    ensures |bookedSlots| >= |AllTimeSlots|
  {
    CatalogShape();
    var catalog := set x | x in AllTimeSlots;
    var booked := set x | x in bookedSlots;
    assert catalog <= booked by {
      forall x | x in catalog ensures x in booked {
        assert x !in AvailableSlots(bookedSlots);
      }
    }
    forall i, j | 0 <= i < j < |AllTimeSlots| ensures AllTimeSlots[i] != AllTimeSlots[j] {
      assert MinuteOfDay(AllTimeSlots[i]) < MinuteOfDay(AllTimeSlots[j]);
    }
    DistinctElementsCount(AllTimeSlots);
    DistinctCount(bookedSlots);
    assert |catalog| <= |booked| by {
      SubsetCardinality(catalog, booked);
    }
  }

  lemma SubsetCardinality(a: set<string>, b: set<string>)
    requires a <= b
    ensures |a| <= |b|
  {
    assert b == a + (b - a);
  }

  /**
   * The converse does not hold: the gate counts entries, so a booked list
   * with a repeated time reports the date full while slots are still offered.
   */
  lemma FullGateWithFreeSlots()
    ensures
      var booked := seq(14, _ => "09:00");
      |booked| >= |AllTimeSlots| && "09:30" in AvailableSlots(booked)
  {
    var booked := seq(14, _ => "09:00");
    assert "09:30" != "09:00";
    assert forall i :: 0 <= i < |booked| ==> booked[i] == "09:00";
    assert AllTimeSlots[1] == "09:30";
  }

  // ---- option labels ----

  /** `h % 12 || 12`. */
  function DisplayHour(h: nat): (d: nat)
    ensures 1 <= d <= 12
    ensures d % 12 == h % 12
  {
    if h % 12 == 0 then 12 else h % 12
  }

  function Period(h: nat): string {
    if h >= 12 then "PM" else "AM"
  }

  /** `${n}` for a number of one or two digits. */
  function ShortDecimal(n: nat): (s: string)
    requires n < 100
    ensures 1 <= |s| <= 2 && (|s| == 1 <==> n < 10)
    ensures forall k :: 0 <= k < |s| ==> IsDigit(s[k])
    ensures n < 10 ==> DigitValue(s[0]) == n
    ensures n >= 10 ==> TwoDigitValue(s, 0) == n
  {
    if n < 10 then [DigitChar(n)] else [DigitChar(n / 10), DigitChar(n % 10)]
  }

  lemma ShortDecimalInjective(a: nat, b: nat)
    requires a < 100 && b < 100 && ShortDecimal(a) == ShortDecimal(b)
    ensures a == b
  {
    var s := ShortDecimal(a);
    if a < 10 {
      assert DigitValue(s[0]) == a && DigitValue(s[0]) == b;
    } else {
      assert DigitValue(s[0]) == a / 10 == b / 10;
      assert DigitValue(s[1]) == a % 10 == b % 10;
    }
  }

  /** The option text `${displayH}:${mm} ${period}` for a slot. */
  function SlotLabel(slot: string): (text: string)
    requires IsTimeText(slot)
    ensures |text| >= 7
    ensures text[|text| - 2..] == "PM" <==> HourOf(slot) >= 12
    ensures text[|text| - 6] == ':' && text[|text| - 3] == ' '
  {
    var h, m := HourOf(slot), MinuteOf(slot);
    ShortDecimal(DisplayHour(h)) + ":" + Pad2(m) + " " + Period(h)
  }

  lemma LabelExample()
    ensures SlotLabel("13:00") == "1:00 PM"
    ensures SlotLabel("09:30") == "9:30 AM"
  {
    assert HourOf("13:00") == 13 && MinuteOf("13:00") == 0;
    assert ShortDecimal(DisplayHour(13)) == "1" && Pad2(0) == "00";
    assert HourOf("09:30") == 9 && MinuteOf("09:30") == 30;
    assert ShortDecimal(DisplayHour(9)) == "9" && Pad2(30) == "30";
  }

  /** Where the hour, minutes and period sit in a label. */
  lemma LabelParts(slot: string)
    requires IsTimeText(slot)
    ensures var d := ShortDecimal(DisplayHour(HourOf(slot))); var text := SlotLabel(slot);
      && |text| == |d| + 6
      && text[..|d|] == d
      && text[|d| + 1..|d| + 3] == Pad2(MinuteOf(slot))
      && text[|d| + 4..] == Period(HourOf(slot))
  {
  }

  /** Within a day, the display hour and the period give back the hour. */
  lemma HourFromDisplay(h: nat)
    requires h < 24
    ensures h == DisplayHour(h) % 12 + (if Period(h) == "PM" then 12 else 0)
  {
  }

  /** Two slots with the same label have the same display hour, minutes and period. */
  lemma SameLabelSameParts(a: string, b: string)
    requires IsTimeText(a) && IsTimeText(b)
    requires SlotLabel(a) == SlotLabel(b)
    ensures DisplayHour(HourOf(a)) == DisplayHour(HourOf(b))
    ensures MinuteOf(a) == MinuteOf(b)
    ensures Period(HourOf(a)) == Period(HourOf(b))
  {
    var da, db := ShortDecimal(DisplayHour(HourOf(a))), ShortDecimal(DisplayHour(HourOf(b)));
    LabelParts(a);
    LabelParts(b);
    assert |da| == |db|;
    assert da == db;
    ShortDecimalInjective(DisplayHour(HourOf(a)), DisplayHour(HourOf(b)));
    assert Pad2(MinuteOf(a)) == Pad2(MinuteOf(b));
  }

  /** Within a day (hour below 24) no two slots share a label: the label determines the slot. */
  lemma LabelDeterminesSlot(a: string, b: string)
    requires IsTimeText(a) && IsTimeText(b) && HourOf(a) < 24 && HourOf(b) < 24
    requires SlotLabel(a) == SlotLabel(b)
    ensures a == b
  {
    SameLabelSameParts(a, b);
    HourFromDisplay(HourOf(a));
    HourFromDisplay(HourOf(b));
    TimeTextInjective(a, b);
  }

  // ---- component state ----

  datatype FormField = Name | Email | Phone | Date | Time

  datatype FormData = FormData(name: string, email: string, phone: string, date: string, time: string) {
    function Get(f: FormField): string {
      match f
      case Name => name
      case Email => email
      case Phone => phone
      case Date => date
      case Time => time
    }

    /** `{ ...formData, [field]: value }`. */
    function With(f: FormField, value: string): (r: FormData)
      ensures r.Get(f) == value
      ensures forall g :: g != f ==> r.Get(g) == Get(g)
    {
      match f
      case Name => this.(name := value)
      case Email => this.(email := value)
      case Phone => this.(phone := value)
      case Date => this.(date := value)
      case Time => this.(time := value)
    }
  }

  const EmptyForm := FormData("", "", "", "", "")

  /** A date input yields "" or "YYYY-MM-DD"; the time select yields "" or an "HH:MM" option. */
  predicate FormWellShaped(f: FormData) {
    (f.date == "" || IsDateText(f.date)) && (f.time == "" || IsTimeText(f.time))
  }

  /** `status.type`: '', 'error' or 'success'. */
  datatype StatusKind = Blank | Failure | Done

  datatype Status = Status(kind: StatusKind, message: string)

  /** The gates `handleSubmit` runs before sending, in order. */
  datatype Gate = ClosedWeekend | ClosedHoliday | DateFull | TimeRejected

  function GateMessage(g: Gate): (text: string)
    ensures text != ""
  {
    match g
    case ClosedWeekend => "We are closed on weekends. Please select a weekday."
    case ClosedHoliday => "We are closed on holidays. Please select another date."
    case DateFull => "This date is currently unavailable for scheduling. Please select another day."
    case TimeRejected => "Please select a time between 9:00 AM and 5:00 PM MST."
  }

  /** The first gate that stops the submission, or None when the request is sent. */
  function SubmitGate(f: FormData, bookedSlots: seq<string>): (g: Option<Gate>)
    requires FormWellShaped(f)
    ensures g.None? <==> ValidateTime(f.date, f.time) && |bookedSlots| < |AllTimeSlots|
    ensures g == Some(ClosedWeekend) <==> IsWeekend(LocalDate(f.date))
    ensures g == Some(ClosedHoliday) <==> !IsWeekend(LocalDate(f.date)) && IsHoliday(LocalDate(f.date))
    ensures g == Some(DateFull) <==>
      !IsWeekend(LocalDate(f.date)) && !IsHoliday(LocalDate(f.date)) && |bookedSlots| >= |AllTimeSlots|
    ensures g == Some(TimeRejected) <==>
      !IsWeekend(LocalDate(f.date)) && !IsHoliday(LocalDate(f.date)) && |bookedSlots| < |AllTimeSlots|
      && !ValidateTime(f.date, f.time)
    ensures f.date == "" ==> g == (if |bookedSlots| >= |AllTimeSlots| then Some(DateFull) else Some(TimeRejected))
  {
    var dateObj := LocalDate(f.date);
    if IsWeekend(dateObj) then Some(ClosedWeekend)
    else if IsHoliday(dateObj) then Some(ClosedHoliday)
    else if |bookedSlots| >= |AllTimeSlots| then Some(DateFull)
    else if !ValidateTime(f.date, f.time) then Some(TimeRejected)
    else None
  }

  /** What the POST came back with: a 2xx, a non-2xx with its `error` text, or a thrown fetch or parse. */
  datatype SubmitReply = Accepted | Refused(error: string) | Unreachable

  class SchedulerState {
    var formData: FormData
    var status: Status
    var bookedSlots: seq<string>

    predicate Valid()
      reads this
    {
      FormWellShaped(formData)
    }

    constructor ()
      ensures Valid()
      ensures formData == EmptyForm && status == Status(Blank, "") && bookedSlots == []
    {
      formData := EmptyForm;
      status := Status(Blank, "");
      bookedSlots := [];
    }

    /** `handleChange`: only the named field takes the input's value. */
    method HandleChange(field: FormField, value: string)
      requires Valid()
      requires field == Date ==> value == "" || IsDateText(value)
      requires field == Time ==> value == "" || IsTimeText(value)
      modifies this
      ensures Valid()
      ensures formData == old(formData).With(field, value)
      ensures status == old(status) && bookedSlots == old(bookedSlots)
    {
      formData := formData.With(field, value);
    }

    /**
     * The availability effect for the current date: cleared when the date
     * is empty; replaced by `data.bookedTimes || []` when the fetch answers
     * 2xx (`fetched` is Some); left as it was when the fetch fails.
     */
    method ApplyAvailability(fetched: Option<seq<string>>)
      requires Valid()
      modifies this
      ensures Valid() && formData == old(formData) && status == old(status)
      ensures formData.date == "" ==> bookedSlots == []
      ensures formData.date != "" && fetched.Some? ==> bookedSlots == fetched.value
      ensures formData.date != "" && fetched.None? ==> bookedSlots == old(bookedSlots)
    {
      if formData.date != "" {
        if fetched.Some? {
          bookedSlots := fetched.value;
        }
      } else {
        bookedSlots := [];
      }
    }

    /**
     * `handleSubmit`: the first failing gate sets an error status and
     * nothing is sent; otherwise the request goes out, and a success
     * empties all five fields.
     */
    method HandleSubmit(reply: SubmitReply) returns (sent: bool)
      requires Valid()
      modifies this
      ensures Valid() && bookedSlots == old(bookedSlots)
      ensures sent <==> SubmitGate(old(formData), old(bookedSlots)).None?
      ensures !sent ==> (formData == old(formData)
        && status == Status(Failure, GateMessage(SubmitGate(old(formData), old(bookedSlots)).value)))
      ensures sent && reply.Accepted? ==>
        formData == EmptyForm && status == Status(Done, "Call scheduled successfully! We will contact you shortly.")
      ensures sent && reply.Refused? ==> (formData == old(formData)
        && status == Status(Failure, if reply.error != "" then reply.error else "Something went wrong."))
      ensures sent && reply.Unreachable? ==> formData == old(formData) && status == Status(Failure, "Failed to send request.")
    {
      status := Status(Blank, "");
      var gate := SubmitGate(formData, bookedSlots);
      if gate.Some? {
        status := Status(Failure, GateMessage(gate.value));
        return false;
      }
      sent := true;
      match reply
      case Accepted =>
        status := Status(Done, "Call scheduled successfully! We will contact you shortly.");
        formData := EmptyForm;
      case Refused(error) =>
        status := Status(Failure, if error != "" then error else "Something went wrong.");
      case Unreachable =>
        status := Status(Failure, "Failed to send request.");
    }
  }
}
