/**
 * The booking API route: the POST validation chain and conflict check, the
 * two stores `saveBooking` writes (a JSON file of all bookings and a
 * key-value list per date), the GET availability read, and the 30-minute
 * end-time computation used for the calendar event.
 *
 * Request fields are strings; a field absent from the JSON body is the
 * empty string here (both are falsy for the `!name || ...` test). A date is
 * empty or "YYYY-MM-DD", a time is empty or "HH:MM".
 */
module ScheduleRoute {
  import opened Wrappers
  import opened ClockText
  import opened CivilCalendar

  datatype BookingRequest = BookingRequest(name: string, email: string, phone: string, date: string, time: string)

  /** The record `saveBooking` stores: the request plus its `createdAt` stamp. */
  datatype Booking = Booking(name: string, email: string, phone: string, date: string, time: string, createdAt: string)

  function Record(req: BookingRequest, createdAt: string): (b: Booking)
    ensures b.date == req.date && b.time == req.time
  {
    Booking(req.name, req.email, req.phone, req.date, req.time, createdAt)
  }

  predicate WellShaped(req: BookingRequest) {
    (req.date == "" || IsDateText(req.date)) && (req.time == "" || IsTimeText(req.time))
  }

  /** The reasons POST answers 400, in the order the handler tests them. */
  datatype Rejection = MissingFields | OutsideBusinessHours | LunchHour | NotWeekday | Holiday | SlotTaken

  /** The `error` text of each 400 answer. */
  function ErrorMessage(r: Rejection): (text: string)
    ensures text != "" && text != "Success"
  {
    match r
    case MissingFields => "Missing required fields. Please ensure name, email, phone, date, and time are provided."
    case OutsideBusinessHours => "Please select a time between 9:00 AM and 5:00 PM Mountain Time."
    case LunchHour => "The 12:00 PM - 1:00 PM lunch hour is not available for scheduling."
    case NotWeekday => "Scheduling is only available Monday through Friday."
    case Holiday => "Scheduling is not available on holidays."
    case SlotTaken => "This time slot is already booked. Please choose another time."
  }

  datatype PostResponse = Success | BadRequest(reason: Rejection)

  function StatusCode(resp: PostResponse): (code: nat)
    ensures code == 200 <==> resp.Success?
    ensures code == 400 <==> resp.BadRequest?
  {
    if resp.Success? then 200 else 400
  }

  /** The JSON body: `{ message: 'Success' }` on 200, `{ error }` on 400. */
  function ResponseText(resp: PostResponse): (text: string)
    ensures text == "Success" <==> resp.Success?
    ensures resp.BadRequest? ==> text == ErrorMessage(resp.reason)
  {
    match resp
    case Success => "Success"
    case BadRequest(r) => ErrorMessage(r)
  }

  function Respond(decision: Option<Rejection>): PostResponse {
    match decision
    case None => Success
    case Some(r) => BadRequest(r)
  }

  // ---- the individual checks ----

  predicate HasMissingField(req: BookingRequest) {
    req.name == "" || req.email == "" || req.phone == "" || req.date == "" || req.time == ""
  }

  /** Hours in [9, 17): the negation of `hours < 9 || hours >= 17`. */
  predicate InBusinessHours(time: string)
    requires IsTimeText(time)
  {
    9 <= HourOf(time) < 17
  }

  predicate IsLunchSlot(time: string) {
    time == "12:00" || time == "12:30"
  }

  /** `new Date(date).getUTCDay()`. */
  function UtcWeekday(date: string): (w: nat)
    requires IsDateText(date)
    ensures w < 7
  {
    DayOfWeek(DateOf(date))
  }

  /** The weekday test of the handler: refused unless Monday through Friday. */
  predicate IsWeekendDate(date: string)
    requires IsDateText(date)
    ensures IsWeekendDate(date) <==> !(1 <= DayOfWeek(DateOf(date)) <= 5)
  {
    UtcWeekday(date) == 0 || UtcWeekday(date) == 6
  }

  /** New Year, July 4th, Christmas, with `getUTCMonth`'s 0-based month. */
  predicate IsFixedHoliday(date: string)
    requires IsDateText(date)
    ensures IsFixedHoliday(date) ==> DateOf(date).month in {1, 7, 12} && DateOf(date).day in {1, 4, 25}
  {
    var month := DateOf(date).month - 1;
    var day := DateOf(date).day;
    (month == 0 && day == 1) || (month == 6 && day == 4) || (month == 11 && day == 25)
  }

  predicate SameSlot(b: Booking, date: string, time: string) {
    b.date == date && b.time == time
  }

  /** `bookings.find(b => b.date === date && b.time === time)`, as the index of the match. */
  function FirstConflict(bookings: seq<Booking>, date: string, time: string): (r: Option<nat>)
    ensures r.Some? ==> r.value < |bookings| && SameSlot(bookings[r.value], date, time)
    ensures r.Some? ==> forall j :: 0 <= j < r.value ==> !SameSlot(bookings[j], date, time)
    ensures r.None? <==> forall j :: 0 <= j < |bookings| ==> !SameSlot(bookings[j], date, time)
  {
    if |bookings| == 0 then None
    else if SameSlot(bookings[0], date, time) then Some(0)
    else
      match FirstConflict(bookings[1..], date, time)
      case None => None
      case Some(i) => Some(i + 1)
  }

  /** The policy half of the chain (route.js lines 81-114): everything but the conflict. */
  function PolicyRejection(req: BookingRequest): (r: Option<Rejection>)
    requires WellShaped(req)
    ensures r.None? ==> !HasMissingField(req) && InBusinessHours(req.time) && !IsLunchSlot(req.time)
    ensures r.None? ==> !IsWeekendDate(req.date) && !IsFixedHoliday(req.date)
    ensures r != Some(SlotTaken)
  {
    if HasMissingField(req) then Some(MissingFields)
    else if !InBusinessHours(req.time) then Some(OutsideBusinessHours)
    else if IsLunchSlot(req.time) then Some(LunchHour)
    else if IsWeekendDate(req.date) then Some(NotWeekday)
    else if IsFixedHoliday(req.date) then Some(Holiday)
    else None
  }

  /**
   * What POST decides for a request against the bookings `getBookings`
   * returned: the first failing check, or None when the booking is saved.
   */
  function Decide(req: BookingRequest, bookings: seq<Booking>): (r: Option<Rejection>)
    requires WellShaped(req)
    ensures r.None? ==> !HasMissingField(req) && IsTimeText(req.time) && IsDateText(req.date)
    ensures r.None? ==> 9 <= HourOf(req.time) < 17 && req.time != "12:00" && req.time != "12:30"
    ensures r.None? ==> UtcWeekday(req.date) != 0 && UtcWeekday(req.date) != 6 && !IsFixedHoliday(req.date)
    ensures r.None? ==> forall j :: 0 <= j < |bookings| ==> !SameSlot(bookings[j], req.date, req.time)
    ensures r == Some(SlotTaken) <==>
      PolicyRejection(req).None? && exists j :: 0 <= j < |bookings| && SameSlot(bookings[j], req.date, req.time)
  {
    match PolicyRejection(req)
    case Some(reason) => Some(reason)
    case None => if FirstConflict(bookings, req.date, req.time).Some? then Some(SlotTaken) else None
  }

  // ---- the order of the checks, stated independently ----

  /** Position of each check in the chain. */
  function Rank(r: Rejection): nat {
    match r
    case MissingFields => 0
    case OutsideBusinessHours => 1
    case LunchHour => 2
    case NotWeekday => 3
    case Holiday => 4
    case SlotTaken => 5
  }

  /** Whether check `c`, taken on its own, objects to the request. */
  predicate Fails(req: BookingRequest, bookings: seq<Booking>, c: Rejection)
    requires WellShaped(req)
  {
    match c
    case MissingFields => HasMissingField(req)
    case OutsideBusinessHours => IsTimeText(req.time) && !InBusinessHours(req.time)
    case LunchHour => IsLunchSlot(req.time)
    case NotWeekday => IsDateText(req.date) && IsWeekendDate(req.date)
    case Holiday => IsDateText(req.date) && IsFixedHoliday(req.date)
    case SlotTaken => exists j :: 0 <= j < |bookings| && SameSlot(bookings[j], req.date, req.time)
  }

  /**
   * The 400 reason is the failing check that comes first in the chain, and
   * the request is accepted exactly when no check fails.
   */
  lemma FirstFailingCheckDecides(req: BookingRequest, bookings: seq<Booking>, c: Rejection)
    requires WellShaped(req)
    ensures Decide(req, bookings) == Some(c) <==>
      Fails(req, bookings, c) && forall e :: Rank(e) < Rank(c) ==> !Fails(req, bookings, e)
    ensures Decide(req, bookings).None? <==> forall e :: !Fails(req, bookings, e)
  {
    var d := Decide(req, bookings);
    if d.Some? {
      forall e | Rank(e) < Rank(d.value) ensures !Fails(req, bookings, e) {
        FailsBeforeDecision(req, bookings, e);
      }
      assert Fails(req, bookings, d.value);
    } else {
      forall e ensures !Fails(req, bookings, e) {
        FailsBeforeDecision(req, bookings, e);
      }
    }
  }

  /** Every check ranked before the deciding one passed; with no decision, every check passed. */
  lemma FailsBeforeDecision(req: BookingRequest, bookings: seq<Booking>, e: Rejection)
    requires WellShaped(req)
    ensures Decide(req, bookings).Some? && Rank(e) < Rank(Decide(req, bookings).value) ==> !Fails(req, bookings, e)
    ensures Decide(req, bookings).None? ==> !Fails(req, bookings, e)
  {
    if !HasMissingField(req) {
      assert IsTimeText(req.time) && IsDateText(req.date);
    }
    if e == SlotTaken {
      var conflict := FirstConflict(bookings, req.date, req.time);
    }
  }

  /** A weekend date is refused whatever the time; with the earlier checks passed, for being a weekend. */
  lemma WeekendAlwaysRejected(req: BookingRequest, bookings: seq<Booking>)
    requires WellShaped(req) && IsDateText(req.date) && IsWeekendDate(req.date)
    ensures Decide(req, bookings).Some?
    ensures Decide(req, bookings) != Some(Holiday) && Decide(req, bookings) != Some(SlotTaken)
    ensures !HasMissingField(req) && InBusinessHours(req.time) && !IsLunchSlot(req.time) ==>
      Decide(req, bookings) == Some(NotWeekday)
  {
  }

  /** The holiday test reads month and day only: moving a date to another year keeps the answer. */
  lemma HolidayIgnoresYear(a: string, b: string)
    requires IsDateText(a) && IsDateText(b)
    requires DateOf(a).month == DateOf(b).month && DateOf(a).day == DateOf(b).day
    ensures IsFixedHoliday(a) == IsFixedHoliday(b)
  {
  }

  /** The three holidays, and nothing else, as (month 1..12, day) pairs of the date text. */
  lemma HolidaysAreTheFixedThree(date: string)
    requires IsDateText(date)
    ensures IsFixedHoliday(date) <==>
      || (DateOf(date).month == 1 && DateOf(date).day == 1)
      || (DateOf(date).month == 7 && DateOf(date).day == 4)
      || (DateOf(date).month == 12 && DateOf(date).day == 25)
  {
  }

  // ---- the file store read by getBookings ----

  /** data/bookings.json: absent, not parseable as JSON, or an array of records. */
  datatype FileState = Missing | Unparseable | Stored(records: seq<Booking>)

  /** `getBookings`: the stored array, or [] when the file is absent or unparseable. */
  function ReadBookings(f: FileState): (bookings: seq<Booking>)
    ensures f.Stored? ==> bookings == f.records
    ensures !f.Stored? ==> bookings == []
  {
    match f
    case Stored(records) => records
    case _ => []
  }

  /** No two records share a (date, time) pair. */
  ghost predicate UniqueSlots(bookings: seq<Booking>) {
    forall i, j :: 0 <= i < j < |bookings| ==>
      !(bookings[i].date == bookings[j].date && bookings[i].time == bookings[j].time)
  }

  /** Appending a booking the conflict check let through keeps the slots unique. */
  lemma AppendKeepsSlotsUnique(bookings: seq<Booking>, b: Booking)
    requires UniqueSlots(bookings)
    requires FirstConflict(bookings, b.date, b.time).None?
    ensures UniqueSlots(bookings + [b])
  {
    var s := bookings + [b];
    forall i, j | 0 <= i < j < |s|
      ensures !(s[i].date == s[j].date && s[i].time == s[j].time)
    {
      if j == |bookings| {
        assert !SameSlot(bookings[i], b.date, b.time);
      } else {
        assert s[i] == bookings[i] && s[j] == bookings[j];
      }
    }
  }

  // ---- the key-value store, one list per date ----

  /** One element of a `bookings:<date>` list: a JSON text of a record, or text that does not parse. */
  datatype KvEntry = Json(record: Booking) | Garbled

  type KvStore = map<string, seq<KvEntry>>

  function DateKey(date: string): (key: string)
    ensures |key| == 9 + |date| && key[9..] == date
  {
    "bookings:" + date
  }

  lemma DateKeyInjective(a: string, b: string)
    ensures DateKey(a) == DateKey(b) <==> a == b
  {
    if DateKey(a) == DateKey(b) {
      assert a == DateKey(a)[9..] == DateKey(b)[9..] == b;
    }
  }

  /** `lrange(key, 0, -1)`: the list under key, empty when the key was never written. */
  function ListAt(kv: KvStore, key: string): (list: seq<KvEntry>)
    ensures key !in kv ==> list == []
    ensures key in kv ==> list == kv[key]
  {
    if key in kv then kv[key] else []
  }

  /** `lpush(bookings:<date>, JSON.stringify(b))`: the record goes to the front of its date's list. */
  function LPush(kv: KvStore, b: Booking): (kv': KvStore)
    ensures ListAt(kv', DateKey(b.date)) == [Json(b)] + ListAt(kv, DateKey(b.date))
    ensures forall key :: key != DateKey(b.date) ==> ListAt(kv', key) == ListAt(kv, key)
  {
    kv[DateKey(b.date) := [Json(b)] + ListAt(kv, DateKey(b.date))]
  }

  // ---- GET ----

  /** `bookings.map(b => JSON.parse(b).time).filter(Boolean)`: the times of the parseable entries, in list order. */
  function BookedTimes(entries: seq<KvEntry>): (times: seq<string>)
    ensures |times| <= |entries|
    ensures forall t :: t in times ==> t != ""
    ensures forall t :: t in times ==> exists i :: 0 <= i < |entries| && entries[i].Json? && entries[i].record.time == t
    ensures forall i :: 0 <= i < |entries| && entries[i].Json? && entries[i].record.time != "" ==>
      entries[i].record.time in times
  {
    if |entries| == 0 then []
    else
      var rest := BookedTimes(entries[1..]);
      assert forall i :: 1 <= i < |entries| ==> entries[i] == entries[1..][i - 1];
      if entries[0].Json? && entries[0].record.time != "" then [entries[0].record.time] + rest else rest
  }

  /** The filter keeps list order: reading two lists one after the other is reading their concatenation. */
  lemma {:induction false} BookedTimesConcat(a: seq<KvEntry>, b: seq<KvEntry>)
    ensures BookedTimes(a + b) == BookedTimes(a) + BookedTimes(b)
  {
    if |a| == 0 {
      assert a + b == b;
    } else {
      assert (a + b)[1..] == a[1..] + b;
      BookedTimesConcat(a[1..], b);
    }
  }

  datatype GetResponse = Times(bookedTimes: seq<string>) | DateRequired | AvailabilityFailed

  function GetStatusCode(resp: GetResponse): (code: nat)
    ensures code == 200 <==> resp.Times?
    ensures resp.DateRequired? ==> code == 400
    ensures resp.AvailabilityFailed? ==> code == 500
  {
    match resp
    case Times(_) => 200
    case DateRequired => 400
    case AvailabilityFailed => 500
  }

  /**
   * GET /api/schedule?date=...: `date` is "" when the parameter is absent;
   * `kvReachable` is false when `lrange` throws.
   */
  function HandleGet(kv: KvStore, date: string, kvReachable: bool): (resp: GetResponse)
    ensures date == "" <==> resp == DateRequired
    ensures date != "" && !kvReachable <==> resp == AvailabilityFailed
    ensures resp.Times? ==> |resp.bookedTimes| <= |ListAt(kv, DateKey(date))|
    ensures date != "" && kvReachable ==> resp == Times(BookedTimes(ListAt(kv, DateKey(date))))
  {
    if date == "" then DateRequired
    else if !kvReachable then AvailabilityFailed
    else Times(BookedTimes(ListAt(kv, DateKey(date))))
  }

  /** After a booking reaches the key-value store, GET for its date lists its time first. */
  lemma SavedTimeIsListed(kv: KvStore, b: Booking)
    requires b.date != "" && b.time != ""
    ensures HandleGet(LPush(kv, b), b.date, true) == Times([b.time] + BookedTimes(ListAt(kv, DateKey(b.date))))
  {
    BookedTimesConcat([Json(b)], ListAt(kv, DateKey(b.date)));
  }

  /** A booking for one date never changes what GET reports for another. */
  lemma OtherDatesUnaffected(kv: KvStore, b: Booking, date: string, kvReachable: bool)
    requires date != b.date
    ensures HandleGet(LPush(kv, b), date, kvReachable) == HandleGet(kv, date, kvReachable)
  {
    DateKeyInjective(date, b.date);
  }

  // ---- POST over the two stores ----

  class BookingStore {
    var file: FileState
    var kv: KvStore

    constructor (file: FileState, kv: KvStore)
      ensures this.file == file && this.kv == kv
    {
      this.file := file;
      this.kv := kv;
    }

    /**
     * `saveBooking`: push onto the array read from the file and write it
     * back, then lpush onto the date's list. Either write may fail; the
     * failure is logged and swallowed, so the store is then left as it was.
     */
    method SaveBooking(b: Booking, fileWritable: bool, kvWritable: bool)
      modifies this
      ensures file == (if fileWritable then Stored(ReadBookings(old(file)) + [b]) else old(file))
      ensures kv == (if kvWritable then LPush(old(kv), b) else old(kv))
    {
      if fileWritable {
        var bookings := ReadBookings(file);
        bookings := bookings + [b];
        file := Stored(bookings);
      }
      if kvWritable {
        var key := DateKey(b.date);
        kv := kv[key := [Json(b)] + ListAt(kv, key)];
      }
    }

    /**
     * POST /api/schedule. `createdAt` stands for `new Date().toISOString()`;
     * the e-mail and calendar steps that follow the save cannot change the
     * answer and are not modelled.
     */
    method Post(req: BookingRequest, createdAt: string, fileWritable: bool, kvWritable: bool)
      returns (resp: PostResponse)
      requires WellShaped(req)
      modifies this
      ensures resp == Respond(Decide(req, ReadBookings(old(file))))
      ensures resp.BadRequest? ==> file == old(file) && kv == old(kv)
      ensures resp.Success? ==>
        && file == (if fileWritable then Stored(ReadBookings(old(file)) + [Record(req, createdAt)]) else old(file))
        && kv == (if kvWritable then LPush(old(kv), Record(req, createdAt)) else old(kv))
      ensures UniqueSlots(ReadBookings(old(file))) ==> UniqueSlots(ReadBookings(file))
    {
      var decision := Decide(req, ReadBookings(file));
      if decision.Some? {
        return BadRequest(decision.value);
      }
      var b := Record(req, createdAt);
      ghost var before := ReadBookings(file);
      SaveBooking(b, fileWritable, kvWritable);
      if fileWritable && UniqueSlots(before) {
        AppendKeepsSlotsUnique(before, b);
      }
      resp := Success;
    }
  }

  /** After a saved booking, the same slot is refused as taken to any complete request. */
  lemma RepeatedSlotIsTaken(req: BookingRequest, again: BookingRequest, bookings: seq<Booking>, createdAt: string)
    requires WellShaped(req) && WellShaped(again)
    requires Decide(req, bookings).None?
    requires again.date == req.date && again.time == req.time && !HasMissingField(again)
    ensures Decide(again, bookings + [Record(req, createdAt)]) == Some(SlotTaken)
  {
    var s := bookings + [Record(req, createdAt)];
    assert SameSlot(s[|bookings|], again.date, again.time);
  }

  // ---- the conflict check reads the file store only ----

  /** No two parseable entries of one list share a (date, time) pair. */
  ghost predicate KvSlotsUnique(entries: seq<KvEntry>) {
    forall i, j :: 0 <= i < j < |entries| && entries[i].Json? && entries[j].Json? ==>
      !(entries[i].record.date == entries[j].record.date && entries[i].record.time == entries[j].record.time)
  }

  ghost predicate KvStoreUnique(kv: KvStore) {
    forall key :: key in kv ==> KvSlotsUnique(kv[key])
  }

  /**
   * When the file write is skipped (the route's own log line expects this
   * on its hosting platform) the file stays absent, so the conflict check
   * sees no bookings: the same request is accepted twice and the key-value
   * list, which GET reads, holds the slot twice.
   */
  lemma FileOnlyCheckAdmitsKvDuplicate()
    ensures
      var req := BookingRequest("A", "a@x.com", "555", "2025-06-10", "09:00");
      var kv := LPush(LPush(map[], Record(req, "first")), Record(req, "second"));
      && WellShaped(req)
      && Decide(req, ReadBookings(Missing)).None?
      && !KvSlotsUnique(ListAt(kv, DateKey(req.date)))
      && HandleGet(kv, req.date, true) == Times(["09:00", "09:00"])
  {
    var req := BookingRequest("A", "a@x.com", "555", "2025-06-10", "09:00");
    assert IsDateText(req.date) && DateOf(req.date) == CivilDate(2025, 6, 10);
    KnownWeekdays();
    var kv1 := LPush(map[], Record(req, "first"));
    var kv := LPush(kv1, Record(req, "second"));
    var list := ListAt(kv, DateKey(req.date));
    assert list == [Json(Record(req, "second")), Json(Record(req, "first"))];
    BookedTimesConcat([list[0]], [list[1]]);
    assert list == [list[0]] + [list[1]];
  }

  /** Whether a parseable entry of the date's list already holds the slot. */
  predicate KvConflict(entries: seq<KvEntry>, date: string, time: string) {
    exists i :: 0 <= i < |entries| && entries[i].Json? && SameSlot(entries[i].record, date, time)
  }

  /**
   * The decision with the conflict check also run against the key-value
   * list of the date, the store GET answers from.
   */
  function DecideWithKv(req: BookingRequest, bookings: seq<Booking>, kv: KvStore): (r: Option<Rejection>)
    requires WellShaped(req)
    ensures r.None? <==> Decide(req, bookings).None? && !KvConflict(ListAt(kv, DateKey(req.date)), req.date, req.time)
    ensures r.Some? && r.value != SlotTaken ==> r == Decide(req, bookings)
  {
    match Decide(req, bookings)
    case Some(reason) => Some(reason)
    case None => if KvConflict(ListAt(kv, DateKey(req.date)), req.date, req.time) then Some(SlotTaken) else None
  }

  /**
   * With the corrected decision, every list holds records of its own date
   * and no slot twice, whatever happened to the file writes.
   */
  ghost predicate KvWellKeyed(kv: KvStore) {
    forall key, i :: key in kv && 0 <= i < |kv[key]| && kv[key][i].Json? ==> DateKey(kv[key][i].record.date) == key
  }

  lemma KvCheckedPostKeepsKvUnique(kv: KvStore, req: BookingRequest, bookings: seq<Booking>, createdAt: string)
    requires WellShaped(req) && KvStoreUnique(kv) && KvWellKeyed(kv)
    requires DecideWithKv(req, bookings, kv).None?
    ensures KvStoreUnique(LPush(kv, Record(req, createdAt))) && KvWellKeyed(LPush(kv, Record(req, createdAt)))
  {
    var b := Record(req, createdAt);
    var key := DateKey(b.date);
    var kv' := LPush(kv, b);
    var prior := ListAt(kv, key);
    var s := kv'[key];
    assert s == [Json(b)] + prior;
    forall i, j | 0 <= i < j < |s| && s[i].Json? && s[j].Json?
      ensures !(s[i].record.date == s[j].record.date && s[i].record.time == s[j].record.time)
    {
      if i == 0 {
        assert s[j] == prior[j - 1];
        assert !SameSlot(prior[j - 1].record, req.date, req.time);
      } else {
        assert s[i] == prior[i - 1] && s[j] == prior[j - 1];
      }
    }
    forall k | k in kv' ensures KvSlotsUnique(kv'[k]) {
      if k != key {
        assert kv'[k] == kv[k];
      }
    }
    forall k, i | k in kv' && 0 <= i < |kv'[k]| && kv'[k][i].Json?
      ensures DateKey(kv'[k][i].record.date) == k
    {
      if k == key && i > 0 {
        assert kv'[k][i] == prior[i - 1];
      }
    }
  }

  // ---- end time of the calendar event ----

  /**
   * The end of the 30-minute call: minutes plus 30, carrying into the hour
   * when they reach 60, both parts padded to two digits. Reached only after
   * the hours check, so the start hour is below 17.
   */
  method EndTime(time: string) returns (end: string)
    requires IsTimeText(time) && InBusinessHours(time)
    ensures IsTimeText(end)
    ensures MinuteOfDay(end) == MinuteOfDay(time) + 30
    ensures MinuteOf(time) < 60 ==> MinuteOf(end) < 60
    ensures HourOf(end) == HourOf(time) + (if MinuteOf(time) + 30 >= 60 then 1 else 0)
  {
    var h, m := HourOf(time), MinuteOf(time);
    var endH := h;
    var endM := m + 30;
    if endM >= 60 {
      endH := endH + 1;
      endM := endM - 60;
    }
    end := FormatTime(endH, endM);
  }
}
