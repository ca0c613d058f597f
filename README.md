# Call scheduler: slot rules and booking commit, in Dafny

This project models the part of the call scheduler that decides whether a
requested `(date, time)` may be booked and that commits the booking. It
covers the API route `app/api/schedule/route.js` and the booking form
`components/Scheduler.js`, which checks the same rules in the browser.

**Server (`schedule_route.dfy`, module `ScheduleRoute`).**
- POST is a chain of early returns. In order, it checks for missing fields,
  an hour outside [9, 17), the 12:00 and 12:30 lunch slots, a UTC Saturday or
  Sunday, and the fixed holidays (1 January, 4 July, 25 December). Last, it
  looks for a booking with the same date and time in the file store.
- `Decide` is that chain as a pure function.
- `BookingStore` holds the two stores that `saveBooking` writes:
  - `data/bookings.json`, as `FileState`: absent, unparseable, or an array of
    records;
  - the key-value lists `bookings:<date>`, as a map from key to a list of
    entries. An entry is a parsed record or text that does not parse.
- Either write can fail. The route logs the failure and swallows it. The
  model passes each write's outcome in as a boolean.
- GET is `HandleGet`. It returns the times of the parseable entries in the
  date's list, in list order.
- The 30-minute end time of the calendar event is the method `EndTime`.

**Client (`scheduler.dfy`, module `Scheduler`).**
- The predicates `isWeekend`, `isHoliday` and `validateTime`.
- The fixed 14-slot catalog, and the menu that hides booked slots.
- The 12-hour option labels.
- The component state (`formData`, `status`, `bookedSlots`), as the class
  `SchedulerState`. Its methods stand for `handleChange`, the availability
  effect and `handleSubmit`.

**Shared text and calendar (`clock_text.dfy`, `civil_calendar.dfy`).**
- `"HH:MM"` times, with the same reading as `split(':').map(Number)`.
- `"YYYY-MM-DD"` dates.
- A proleptic Gregorian day of the week. It stands in for `getUTCDay` and
  `getDay` on a well-formed date. It is tied to the calendar by two lemmas:
  the weekday advances by one from each day to the next, and it repeats
  every 400 years.

**Client and server together (`policy_agreement.dfy`).**
- Everything the server's policy accepts, `validateTime` accepts too.
- The converse fails exactly on the lunch slots, which the client does not
  check.
- The module also works through concrete requests: 4 July, a Saturday, a
  weekday lunch slot, the same slot twice, and the admin page's blackout
  calls.

Request fields are strings. A field absent from the JSON body is modelled as
the empty string, since both are falsy for the route's `!name || ...` test.
Dates are required to be empty or well-formed `YYYY-MM-DD` (a real day), and
times empty or `HH:MM` digits. Minutes are never range-checked, as in the
code. `getBookings` returns `[]` for an absent or unparseable file. The
model keeps the consequence: a save then rewrites the file with the new
record alone.

Some things the route does not do, and so the model does not do either:
- The route has no time-format check.
- The route has no blackout handling.
- The conflict check and the save are separate steps, not an atomic
  insert-if-absent.
- Storage failures are swallowed instead of being reported.
- The client does not check the lunch hour.

## Model

| member | source | states |
|---|---|---|
| `ScheduleRoute.Decide` | app/api/schedule/route.js:81-121 | An accepted request has all five fields, hour in [9,17), a time other than "12:00"/"12:30", a UTC weekday 1..5, no fixed holiday and no stored booking with the same date and time; SlotTaken exactly when the policy passes and such a booking exists |
| `ScheduleRoute.PolicyRejection` | app/api/schedule/route.js:81-114 | The policy part of the chain never answers SlotTaken; passing it means fields present, hours, not lunch, not weekend, not holiday |
| `ScheduleRoute.FirstFailingCheckDecides` | app/api/schedule/route.js:81-121 | The 400 reason is the failing check ranked first in the order missing fields, hours, lunch, weekend, holiday, conflict; a request is accepted iff no check fails |
| `ScheduleRoute.WeekendAlwaysRejected` | app/api/schedule/route.js:98-103 | A date whose UTC weekday is 0 or 6 is refused whatever the time, and with the earlier checks passed the reason is the weekday error |
| `ScheduleRoute.HolidayIgnoresYear` | app/api/schedule/route.js:106-114 | Two dates with the same month and day get the same holiday answer, whatever their years |
| `ScheduleRoute.HolidaysAreTheFixedThree` | app/api/schedule/route.js:106-110 | The holiday test holds exactly for 1 January, 4 July and 25 December |
| `ScheduleRoute.FirstConflict` | app/api/schedule/route.js:117-118 | Returns the index of the first stored booking with equal date and time, and None iff there is none |
| `ScheduleRoute.StatusCode` | app/api/schedule/route.js:82-120 | Every rejection answers 400 and success answers 200 |
| `ScheduleRoute.ErrorMessage` | app/api/schedule/route.js:82-120 | Each rejection's `error` text is non-empty and never the success message |
| `ScheduleRoute.ResponseText` | app/api/schedule/route.js:82-120 | The body text is "Success" exactly for the 200 answer; a 400 carries its reason's `error` text |
| `ScheduleRoute.IsWeekendDate` | app/api/schedule/route.js:98-103 | The weekday test refuses a date exactly when its UTC weekday is not Monday through Friday |
| `ScheduleRoute.IsFixedHoliday` | app/api/schedule/route.js:105-112 | Only a day in January, July or December, numbered 1, 4 or 25, can pass the holiday test |
| `ScheduleRoute.ReadBookings` | app/api/schedule/route.js:12-22 | The stored array when the file parses, [] when it is absent or unparseable |
| `ScheduleRoute.AppendKeepsSlotsUnique` | app/api/schedule/route.js:117-124 | Appending a booking the conflict check let through keeps (date, time) unique in the list |
| `ScheduleRoute.BookingStore.SaveBooking` | app/api/schedule/route.js:25-44 | The file becomes the old list plus the record at its end, or stays as it was when the write fails; the record goes to the front of `bookings:<date>`, or the KV store stays as it was when lpush fails |
| `ScheduleRoute.BookingStore.Post` | app/api/schedule/route.js:74-124 | The response is the decision's; a rejection leaves both stores unchanged; a success performs exactly the save; (date, time) uniqueness of the file list is preserved by every call |
| `ScheduleRoute.BookingStore.constructor` | app/api/schedule/route.js:9 | The store starts from a given file and KV state |
| `ScheduleRoute.Record` | app/api/schedule/route.js:124 | The saved record carries the request's date and time |
| `ScheduleRoute.RepeatedSlotIsTaken` | app/api/schedule/route.js:117-121 | After an accepted request is saved to the file, any complete request for the same date and time is refused as taken |
| `ScheduleRoute.DateKey` | app/api/schedule/route.js:37 | The key is `bookings:` followed by the date, from which the date can be read back |
| `ScheduleRoute.DateKeyInjective` | app/api/schedule/route.js:37 | Different dates use different KV keys |
| `ScheduleRoute.ListAt` | app/api/schedule/route.js:56 | `lrange` of a key never written is the empty list; otherwise it is the stored list |
| `ScheduleRoute.LPush` | app/api/schedule/route.js:36-39 | The date's list gains the record at its front; every other key's list is unchanged |
| `ScheduleRoute.BookedTimes` | app/api/schedule/route.js:59-65 | No longer than the list; contains no empty time; contains exactly the non-empty times of the parseable entries |
| `ScheduleRoute.BookedTimesConcat` | app/api/schedule/route.js:59-65 | The extraction keeps list order: it distributes over concatenation |
| `ScheduleRoute.HandleGet` | app/api/schedule/route.js:46-72 | No date gives 400 "Date is required"; a failing KV read gives 500; otherwise exactly `BookedTimes` of the date's list, never more than the list holds |
| `ScheduleRoute.GetStatusCode` | app/api/schedule/route.js:52-70 | 200 exactly for the booked-times answer, 400 for a missing date, 500 for a failed KV read |
| `ScheduleRoute.SavedTimeIsListed` | app/api/schedule/route.js:39-67 | After a booking reaches the KV store, GET for its date lists its time first, followed by what it listed before |
| `ScheduleRoute.OtherDatesUnaffected` | app/api/schedule/route.js:37-56 | A booking for one date never changes GET's answer for another date |
| `ScheduleRoute.FileOnlyCheckAdmitsKvDuplicate` | app/api/schedule/route.js:117-124 | With the file write skipped, the same request is accepted twice and GET then reports the slot twice |
| `ScheduleRoute.DecideWithKv` | app/api/schedule/route.js:117-121 | Accepts iff the route's decision accepts and the date's KV list holds no entry for the slot; other rejections are the route's |
| `ScheduleRoute.KvCheckedPostKeepsKvUnique` | app/api/schedule/route.js:117-124 | With the conflict also checked against the KV list, every list stays free of repeated slots and holds only its own date's records |
| `ScheduleRoute.EndTime` | app/api/schedule/route.js:211-220 | The end is a well-formed HH:MM exactly 30 minutes after the start, with the hour advanced by exactly one carry when minutes + 30 reach 60 (so "16:99" gives "17:69", as the route does), and minutes below 60 whenever the start's were |
| `ClockText.Pad2` | app/api/schedule/route.js:218-219 | Two digits whose value is the number padded |
| `ClockText.HourOf` | app/api/schedule/route.js:87 | The hour read from an HH:MM text is below 100 |
| `ClockText.FormatTime` | app/api/schedule/route.js:218-220 | Writing an hour and minute gives HH:MM text that reads back as the same two numbers |
| `ClockText.FormatParseRoundTrip` | app/api/schedule/route.js:211-220 | Reading an HH:MM text and writing it back reproduces the text |
| `ClockText.TimeTextInjective` | app/api/schedule/route.js:94 | Two HH:MM texts with the same numbers are the same string, so the lunch test on the text is a test on the numbers |
| `CivilCalendar.DateOf` | app/api/schedule/route.js:98 | The fields of a well-formed date text form a real calendar day with a four-digit year |
| `CivilCalendar.FormatDate` | app/api/schedule/route.js:98 | Writing a day as "YYYY-MM-DD" gives well-formed date text that reads back as the same day |
| `CivilCalendar.DateTextRoundTrip` | app/api/schedule/route.js:98 | Reading a well-formed date text and writing it back gives the same text, so the fields read are the numbers written |
| `CivilCalendar.DayOfWeek` | app/api/schedule/route.js:99 | The weekday number is in 0..6 |
| `CivilCalendar.YearLength` | app/api/schedule/route.js:98-99 | A year contributes 366 days exactly when it is a Gregorian leap year |
| `CivilCalendar.NextDayNumber` | app/api/schedule/route.js:98-99 | Consecutive days, across month and year ends, have consecutive day numbers |
| `CivilCalendar.NextDayAdvancesWeekday` | components/Scheduler.js:48-51 | The weekday advances by one modulo seven from each day to the next |
| `CivilCalendar.FourHundredYearCycle` | app/api/schedule/route.js:98-99 | The weekday of a date repeats 400 years later |
| `CivilCalendar.KnownWeekdays` | app/api/schedule/route.js:99 | 1970-01-01 is a Thursday, 2025-06-10 a Tuesday, 2025-06-14 a Saturday, 2025-07-04 a Friday |
| `Scheduler.LocalDate` | components/Scheduler.js:76 | An empty date string gives an invalid date, any other a real calendar day |
| `Scheduler.IsWeekend` | components/Scheduler.js:48-51 | True exactly for a valid date whose weekday is not Monday through Friday; an invalid date is never a weekend |
| `Scheduler.IsHoliday` | components/Scheduler.js:53-71 | Only a valid date in January, July or December, numbered 1, 4 or 25, can be a holiday |
| `Scheduler.IsHolidayExactly` | components/Scheduler.js:53-71 | `isHoliday` holds exactly for 1 January, 4 July and 25 December (0-based months 0, 6, 11), in any year |
| `Scheduler.ValidateTime` | components/Scheduler.js:73-85 | True iff both strings are non-empty, the weekday is 1..5, the day is not a fixed holiday and the hour is in [9,17) |
| `Scheduler.CatalogShape` | components/Scheduler.js:18-22 | The catalog has 14 well-formed, strictly increasing slots, each on the hour or half hour, with hour in [9,17) and none in the 12 o'clock hour |
| `Scheduler.AvailableSlots` | components/Scheduler.js:207-221 | The menu holds exactly the catalog slots not in the booked list, and is no longer than the catalog |
| `Scheduler.Unbooked` | components/Scheduler.js:207-221 | The menu holds exactly the catalog slots not in the booked list, and is no longer than the catalog |
| `Scheduler.UnbookedKeepsOrder` | components/Scheduler.js:207-221 | Filtering an increasing catalog gives an increasing menu |
| `Scheduler.MenuIsOrderedFreeSlots` | components/Scheduler.js:207-221 | The offered options are exactly the unbooked catalog slots, in catalog order |
| `Scheduler.EmptyMenuMeansFullGate` | components/Scheduler.js:103 | When no slot is offered, the booked list has at least 14 entries, so the fully-booked gate's condition holds (on a weekend or holiday an earlier gate decides) |
| `Scheduler.FullGateWithFreeSlots` | components/Scheduler.js:103 | The gate counts entries: a booked list with 14 copies of one time reports the date full while 09:30 is still offered |
| `Scheduler.DisplayHour` | components/Scheduler.js:211 | `h % 12 \|\| 12` lies in 1..12 and agrees with h modulo 12 |
| `Scheduler.SlotLabel` | components/Scheduler.js:209-212 | The label ends in "PM" iff the hour is 12 or more, with ':' before the two minute digits and a space before the period |
| `Scheduler.LabelExample` | components/Scheduler.js:209-212 | "13:00" is labelled "1:00 PM" and "09:30" "9:30 AM" |
| `Scheduler.LabelDeterminesSlot` | components/Scheduler.js:209-212 | For hours below 24, two slots with the same label are the same slot |
| `Scheduler.ShortDecimal` | components/Scheduler.js:212 | `${displayH}` for a number below 100: one digit below 10, else two, whose value is the number |
| `Scheduler.ShortDecimalInjective` | components/Scheduler.js:212 | The decimal text of the display hour determines the hour |
| `Scheduler.FormData.With` | components/Scheduler.js:44-46 | The named field takes the new value and every other field keeps its value |
| `Scheduler.GateMessage` | components/Scheduler.js:94-109 | Each gate's status text is non-empty |
| `Scheduler.SubmitGate` | components/Scheduler.js:91-111 | The gates fire in order: weekend iff the date is a weekend; holiday iff not a weekend but a holiday; fully booked iff neither and at least 14 slots are booked; time rejected iff none of those and `validateTime` fails; the request is sent iff `validateTime` passes and fewer than 14 slots are booked |
| `Scheduler.SchedulerState.constructor` | components/Scheduler.js:6-15 | All five fields empty, blank status, no booked slots |
| `Scheduler.SchedulerState.HandleChange` | components/Scheduler.js:44-46 | Only the named field of the form changes; status and booked slots are untouched |
| `Scheduler.SchedulerState.ApplyAvailability` | components/Scheduler.js:25-42 | An empty date clears the booked slots; a successful fetch replaces them; a failed fetch leaves them |
| `Scheduler.SchedulerState.HandleSubmit` | components/Scheduler.js:87-135 | A request is sent iff every gate passes; a failing gate sets its error and keeps the form; a success resets all five fields to ""; a refusal shows the server's error or "Something went wrong." |
| `PolicyAgreement.WeekendChecksAgree` | components/Scheduler.js:48-51 | The client's `isWeekend` and the route's UTC weekday test agree on every well-formed date |
| `PolicyAgreement.HolidayChecksAgree` | components/Scheduler.js:53-71 | The client's `isHoliday` and the route's inline holiday test agree on every well-formed date |
| `PolicyAgreement.ServerAcceptanceImpliesClientAcceptance` | components/Scheduler.js:73-85 | Every request the route's policy accepts, `validateTime` accepts |
| `PolicyAgreement.ClientAcceptanceMissesOnlyLunch` | app/api/schedule/route.js:93-96 | A complete request accepted by `validateTime` is refused by the route's policy exactly when its time is 12:00 or 12:30, for the lunch hour |
| `PolicyAgreement.LunchSlotSplitsClientAndServer` | components/Scheduler.js:73-85 | 2025-06-10 12:00 passes `validateTime` and is refused by the route for the lunch hour |
| `PolicyAgreement.CatalogSlotsPassServerTimeChecks` | components/Scheduler.js:18-22 | Every catalog slot passes the route's hours and lunch checks |
| `PolicyAgreement.MenuSlotPassesServerPolicy` | components/Scheduler.js:207-221 | A complete request for an offered slot that passes the form's gates passes every policy check of the route |
| `PolicyAgreement.IndependenceDayIsHoliday` | app/api/schedule/route.js:106-114 | A complete request for 2025-07-04 10:00 (a Friday) is refused as a holiday |
| `PolicyAgreement.SaturdayIsRejected` | app/api/schedule/route.js:98-103 | A complete request for 2025-06-14 10:00 is refused for the weekday |
| `PolicyAgreement.SecondRequestForSlotIsTaken` | app/api/schedule/route.js:117-121 | 2025-06-10 09:00 is accepted on an empty store, and a second request for it is refused as taken |
| `PolicyAgreement.BlackoutToggleHitsMissingFields` | app/admin/page.js:41-50 | The admin blackout toggle body lacks name, e-mail, phone and time and so gets the missing-fields error |
| `PolicyAgreement.BlackoutListHitsDateRequired` | app/admin/page.js:22-23 | The admin blackout-list read carries no date and gets 400 |

## Findings

| source | as written | input that shows it | evidently intended | confidence | as-written member | corrected member |
|---|---|---|---|---|---|---|
| app/api/schedule/route.js:117-124 | The conflict check reads only `data/bookings.json`. The KV list, which GET serves, is never consulted. The file write is expected to fail on the hosting platform (line 32). | File write skipped, KV up; two POSTs for 2025-06-10 09:00 | A second request for a slot held in the KV store is refused as taken | medium (not executed) | `ScheduleRoute.FileOnlyCheckAdmitsKvDuplicate` | `ScheduleRoute.KvCheckedPostKeepsKvUnique` |

`ScheduleRoute.BookingStore.Post` models the route as written. The corrected
decision is `ScheduleRoute.DecideWithKv`. Its lemma shows that the KV lists
never hold a slot twice, whatever happens to the file writes. The duplicate
GET answer relies on `lrange` returning the stored strings (see "## Left
out"). Even if it does not, the KV list itself still holds the slot twice.

## Left out

- E-mail, ICS generation, nodemailer and the Google Calendar insert
  (app/api/schedule/route.js:127-242). These are foreign libraries and network
  calls. Their errors are caught, so the answer is 200 once the save has run.
  `Post` returns Success right after `SaveBooking`, whatever they do.
- The 500 path of POST (app/api/schedule/route.js:246-249). It covers a body
  that is not JSON, and `readFileSync` throwing inside the conflict check.
  It also covers a data file that parses as JSON but is not an array of
  records: `bookings.find` or `b.date` then throws at line 118. `FileState`
  cannot represent such a file. All of these are faults outside the model.
- The KV client's serialization. The model takes `lrange` to return the
  strings `lpush` stored, so that `JSON.parse(b).time` at
  app/api/schedule/route.js:61 reads back the record. If the client parsed
  JSON values on read, every `JSON.parse` at line 61 would throw and GET would
  answer an empty list. `SavedTimeIsListed`, `OtherDatesUnaffected` and the
  finding below rely on the model's reading.
- Real `fs` and Vercel KV I/O. Both stores are in-memory values. A failed write
  is a boolean parameter that leaves that store unchanged.
- Concurrency. The check at line 117 and the save at line 124 are not atomic.
  The model is sequential and claims nothing about racing requests.
- Blackout dates. The route has no handler for them. The two admin calls are
  modelled only as the errors they receive.
- JavaScript `Date`/`Number` behaviour on malformed text, such as NaN hours or
  rolled-over days. The model requires dates and times to be empty or
  well-formed.
- The local-time vs UTC difference between components/Scheduler.js:76 and
  app/api/schedule/route.js:98-99. Both read the calendar day written in the
  string.
- The `loading` flag, the HTML `required` attributes and the `min` date of the
  form, rendering, and the scheduling of the React effect.
  `ApplyAvailability` is the effect's update once its fetch has answered.
- The `createdAt` wall-clock value. It is a parameter.
- EndTime: models only the `HH:MM` part of the end date-time string, and
  requires the start hour to be in [9, 17). The block runs only after the
  hours check.
- app/admin/page.js (except the two blackout calls), components/SchedulerForm.js,
  Header.js, Footer.js, app/page.js, app/layout.js and next.config.js are not
  part of this model. They are UI and configuration.
