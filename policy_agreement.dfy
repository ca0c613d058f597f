/**
 * The scheduling rules are written twice: once in the booking form and
 * once in the API route. This module relates the two and works through
 * concrete requests: 4 July, a Saturday, a weekday lunch slot, the same
 * slot twice, and the admin page's blackout calls.
 */
module PolicyAgreement {
  import opened Wrappers
  import opened ClockText
  import opened CivilCalendar
  import opened ScheduleRoute
  import opened Scheduler

  /** `getUTCDay` on the date text and `getDay` on its local midnight name the same weekday. */
  lemma WeekendChecksAgree(date: string)
    requires IsDateText(date)
    ensures IsWeekendDate(date) == IsWeekend(LocalDate(date))
  {
  }

  /** The route's inline holiday test and the client's `isHoliday` accept the same dates. */
  lemma HolidayChecksAgree(date: string)
    requires IsDateText(date)
    ensures IsFixedHoliday(date) == IsHoliday(LocalDate(date))
  {
    HolidaysAreTheFixedThree(date);
    IsHolidayExactly(DateOf(date));
  }

  /** Every request the route's policy checks accept, the client's `validateTime` accepts too. */
  lemma ServerAcceptanceImpliesClientAcceptance(req: BookingRequest)
    requires WellShaped(req) && PolicyRejection(req).None?
    ensures ValidateTime(req.date, req.time)
  {
    WeekendChecksAgree(req.date);
    HolidayChecksAgree(req.date);
    IsHolidayExactly(DateOf(req.date));
  }

  /**
   * The converse fails on the lunch hour only: a complete request that
   * `validateTime` accepts is refused by the route's policy exactly when
   * its time is 12:00 or 12:30, and then for the lunch hour.
   */
  lemma ClientAcceptanceMissesOnlyLunch(req: BookingRequest)
    requires WellShaped(req) && !HasMissingField(req) && ValidateTime(req.date, req.time)
    ensures PolicyRejection(req) == (if IsLunchSlot(req.time) then Some(LunchHour) else None)
  {
    WeekendChecksAgree(req.date);
    HolidayChecksAgree(req.date);
    IsHolidayExactly(DateOf(req.date));
  }

  /** A weekday lunch slot: the form lets it through, the route refuses it. */
  lemma LunchSlotSplitsClientAndServer()
    ensures
      var req := BookingRequest("A", "a@x.com", "555", "2025-06-10", "12:00");
      && WellShaped(req)
      && ValidateTime(req.date, req.time)
      && Decide(req, []) == Some(LunchHour)
  {
    var req := BookingRequest("A", "a@x.com", "555", "2025-06-10", "12:00");
    assert IsDateText(req.date) && DateOf(req.date) == CivilDate(2025, 6, 10);
    KnownWeekdays();
  }

  /** Each catalog slot passes the route's hours and lunch checks. */
  lemma CatalogSlotsPassServerTimeChecks()
    ensures forall i :: 0 <= i < |AllTimeSlots| ==>
      IsTimeText(AllTimeSlots[i]) && InBusinessHours(AllTimeSlots[i]) && !IsLunchSlot(AllTimeSlots[i])
  {
    CatalogShape();
    assert HourOf("12:00") == 12 && HourOf("12:30") == 12;
  }

  /**
   * A slot picked from the menu on a date the form's gates let through
   * passes every policy check of the route; only a conflict can still
   * refuse it.
   */
  lemma MenuSlotPassesServerPolicy(req: BookingRequest, bookedSlots: seq<string>)
    requires WellShaped(req) && !HasMissingField(req)
    requires req.time in AvailableSlots(bookedSlots)
    requires SubmitGate(FormData(req.name, req.email, req.phone, req.date, req.time), bookedSlots).None?
    ensures PolicyRejection(req).None?
  {
    var i :| 0 <= i < |AllTimeSlots| && AllTimeSlots[i] == req.time;
    CatalogSlotsPassServerTimeChecks();
    ClientAcceptanceMissesOnlyLunch(req);
  }

  // ---- the example requests ----

  lemma IndependenceDayIsHoliday()
    ensures
      var req := BookingRequest("A", "a@x.com", "555", "2025-07-04", "10:00");
      WellShaped(req) && Decide(req, []) == Some(Holiday)
  {
    var req := BookingRequest("A", "a@x.com", "555", "2025-07-04", "10:00");
    assert IsDateText(req.date) && DateOf(req.date) == CivilDate(2025, 7, 4);
    KnownWeekdays();
  }

  lemma SaturdayIsRejected()
    ensures
      var req := BookingRequest("A", "a@x.com", "555", "2025-06-14", "10:00");
      WellShaped(req) && Decide(req, []) == Some(NotWeekday)
  {
    var req := BookingRequest("A", "a@x.com", "555", "2025-06-14", "10:00");
    assert IsDateText(req.date) && DateOf(req.date) == CivilDate(2025, 6, 14);
    KnownWeekdays();
  }

  /** Two requests in sequence for 2025-06-10 09:00: the first is saved, the second finds the slot taken. */
  lemma SecondRequestForSlotIsTaken()
    ensures
      var req := BookingRequest("A", "a@x.com", "555", "2025-06-10", "09:00");
      var other := BookingRequest("B", "b@x.com", "556", "2025-06-10", "09:00");
      && WellShaped(req) && WellShaped(other)
      && Decide(req, []) == None
      && Decide(other, [Record(req, "t")]) == Some(SlotTaken)
  {
    var req := BookingRequest("A", "a@x.com", "555", "2025-06-10", "09:00");
    var other := BookingRequest("B", "b@x.com", "556", "2025-06-10", "09:00");
    assert IsDateText(req.date) && DateOf(req.date) == CivilDate(2025, 6, 10);
    KnownWeekdays();
    RepeatedSlotIsTaken(req, other, [], "t");
  }

  /**
   * The admin page's blackout toggle posts `{ action, date, isBlackout,
   * adminPassword }` to the same route: it has no name, e-mail, phone or
   * time, so the route answers with the missing-fields error.
   */
  lemma BlackoutToggleHitsMissingFields(date: string, bookings: seq<Booking>)
    requires date == "" || IsDateText(date)
    ensures Decide(BookingRequest("", "", "", date, ""), bookings) == Some(MissingFields)
  {
  }

  /** The admin page's blackout list read carries no date, so GET answers "Date is required". */
  lemma BlackoutListHitsDateRequired(kv: KvStore, kvReachable: bool)
    ensures GetStatusCode(HandleGet(kv, "", kvReachable)) == 400
  {
  }
}
