# Hospital appointment scheduler: lookup and slot placement, in Dafny

This project models the core of a hospital appointment-scheduling UI. A
front-desk user picks a doctor and a date, and a day or week calendar is
drawn from a fixed in-memory data set of doctors, patients and
appointments. The modelled core is the pipeline behind that calendar:

- **Lookup** (`services/appointmentService.ts`): filter the flat appointment
  list by doctor, by doctor and calendar day, or by doctor and an inclusive
  start-time range. Join each appointment with its doctor and patient,
  dropping those whose references do not resolve. Sort by start time.
- **Slot placement** (`components/DayView.tsx`, `components/WeekView.tsx`):
  twenty fixed 30-minute slots from 08:00 to 18:00. An appointment is listed
  in every slot its interval overlaps (strict half-open test). The week view
  also requires the appointment to start on the column's day.
- **Load coordinator** (`hooks/useAppointments.ts`): picks the range or day
  filter, sorts, populates, and keeps `loading`/`error` state behind a
  `mounted` guard.
- **Week range and body choice** (`components/ScheduleView.tsx`): the
  Monday-start week around the selected date, the hook parameters, and which
  message or grid is shown.

Time is an integer count of minutes on the local time line
(`time.dfy`, module `Time`). The calendar day of an instant is its
floor-quotient by 1440, and day 0 is 1970-01-01, a Thursday. The date-fns
helpers and `Date` setters the source calls (`addDays`, `addMinutes`,
`isSameDay`, `startOfWeek`, `setHours`, `setMinutes`, `setDate`) are
functions on that line. Doctors, patients and appointments are a `Store`
value that every lookup receives.

Files: `types.dfy` (Types), `time.dfy` (Time), `seqs.dfy` (Seqs: `filter`,
`find` and the order-preserving selection they perform),
`appointment_service.dfy` (AppointmentService), `time_slots.dfy`
(TimeSlots: the slot grid and overlap test, which DayView and WeekView
carry as identical copies at `components/DayView.tsx:28-43` and
`components/WeekView.tsx:32-47`), `day_view.dfy` (DayView),
`week_view.dfy` (WeekView), `use_appointments.dfy` (UseAppointments),
`schedule_view.dfy` (ScheduleView).

`Seqs.Selects(r, s, p)` is the reference meaning of `s.filter(p)`. It says
that `r` holds exactly the elements of `s` satisfying `p`, each as often as
`s` holds it, in the order of `s`. `Seqs.FilterSelects` and
`Seqs.SelectsIsFilter` prove that it is equivalent to `Filter`, so every
filter contract below stated with `Selects` fixes the result completely.

The range filter keeps the input order of the appointment list. The hook
keeps a `mounted` flag for each effect run, and the model has it. The
`loading := true` and `error := null` updates at
`hooks/useAppointments.ts:35-36` are not guarded by `mounted`. Only the later
commits are. `UseAppointments.AppointmentsState.Load` states exactly that.

## Model

| member | source | states |
|---|---|---|
| `Types.TypeConfig` | types/index.ts:86-91 | The configuration table is total over the four appointment types. Entry `t` carries type `t`. Default durations are 30, 60, 30 and 90 minutes, each a positive multiple of the 30-minute slot. |
| `Types.ConfigColorsDistinct` | types/index.ts:87-90 | Different appointment types have different card colours. |
| `Types.Extend` | types/index.ts:66-69 | A populated appointment carries every appointment field unchanged (its `Base()` is the original) plus the given doctor and patient. |
| `Seqs.Filter` | services/appointmentService.ts:27 | `filter` keeps exactly the elements satisfying the predicate and never lengthens the list. |
| `Seqs.FilterSelects` | services/appointmentService.ts:27 | `filter` keeps each satisfying element as often as the input holds it, in input order. |
| `Seqs.SelectsIsFilter` | services/appointmentService.ts:27 | Any order-preserving selection of all satisfying elements with their multiplicities equals the `filter` result, so `Selects` determines a filter's output. |
| `Seqs.FilterAgrees` | services/appointmentService.ts:35-39 | Filtering with two predicates that agree on every element gives the same list. |
| `Seqs.Find` | services/appointmentService.ts:21-23 | Lookup returns nothing iff no element matches. Otherwise it returns a matching element with no match before it. |
| `AppointmentService.FindDoctor` | services/appointmentService.ts:20-23 | `getDoctorById` is undefined iff no doctor has the id. Otherwise it is a doctor of the store with that id. |
| `AppointmentService.FindPatient` | services/appointmentService.ts:60 | `getPatientById` is undefined iff no patient has the id. Otherwise it is a patient of the store with that id. |
| `AppointmentService.ByDoctor` | services/appointmentService.ts:26-28 | Exactly the appointments whose doctor id equals the argument, with their multiplicities, in original order. |
| `AppointmentService.ByDoctorAndDate` | services/appointmentService.ts:31-40 | Exactly the appointments of the doctor whose start falls on the calendar day of `date`, in original order. |
| `AppointmentService.DateFilterIgnoresClockTime` | services/appointmentService.ts:31-40 | Two dates on the same calendar day select the same list: the time of day of `date` is ignored. |
| `AppointmentService.ByDoctorAndDateRange` | services/appointmentService.ts:43-55 | Exactly the appointments of the doctor with `startDate <= start <= endDate`, both ends inclusive, in original order. The end time plays no part. |
| `AppointmentService.Populate` | services/appointmentService.ts:58-63 | Null iff the doctor or the patient cannot be found. Otherwise every appointment field is unchanged and the doctor and patient are the store's records with the referenced ids. |
| `AppointmentService.PopulateAll` | services/appointmentService.ts:66-70 | Never longer than the input, and each record is what `Populate` gives for its own appointment. |
| `AppointmentService.PopulateAllBases` | services/appointmentService.ts:66-70 | The populated records are, field for field, the resolvable input appointments in input order. |
| `AppointmentService.PopulateAllLength` | services/appointmentService.ts:66-70 | Output length is at most the input length, and equal to it iff every appointment's doctor and patient resolve. |
| `AppointmentService.InsertByStart` | services/appointmentService.ts:73-77 | One insertion step of the sort adds exactly the inserted appointment to the multiset. |
| `AppointmentService.InsertKeepsSorted` | services/appointmentService.ts:73-77 | Inserting into a list sorted by start keeps it sorted. |
| `AppointmentService.SortByStart` | services/appointmentService.ts:73-77 | The sorted copy is a permutation of the input that is non-decreasing by start time. The argument, a value, is unchanged. |
| `AppointmentService.InsertKeepsTies` | services/appointmentService.ts:74-76 | Insertion puts the new appointment ahead of the ones with its start time and leaves their order alone. |
| `AppointmentService.SortIsStable` | services/appointmentService.ts:74-76 | The sort is stable: for every instant, the appointments starting then appear in input order (ECMA-262 requires `Array.prototype.sort` to be stable since its 2019 edition). |
| `AppointmentService.FilterInsert` | services/appointmentService.ts:73-77 | Dropping elements after an insertion step equals inserting into the list with those elements dropped. |
| `AppointmentService.FilterSortCommutes` | services/appointmentService.ts:73-77 | Filtering the sorted copy gives the sorted copy of the filtered list, so dropping unresolvable appointments commutes with the sort. |
| `Seqs.FilterTwice` | hooks/useAppointments.ts:48-54 | Filtering by one predicate and then by another is filtering once by their conjunction. |
| `AppointmentService.FilterKeepsSorted` | hooks/useAppointments.ts:53-54 | Any selection from a list sorted by start is sorted, so populating a sorted list keeps it sorted. |
| `Time.AddDays` | components/WeekView.tsx:29 | `addDays(t, n)` lands on the calendar day `n` after `t` at the same clock time. |
| `Time.AddMinutes` | components/DayView.tsx:34 | `addMinutes(t, n)` advances the clock time by `n` modulo a day and the calendar day by the number of midnights crossed, so it stays on the day of `t` exactly when it does not cross a midnight. |
| `Time.HourOf` | components/WeekView.tsx:115 | `getHours()` is the hour of the local clock time, in 0..23. |
| `Time.MinuteOf` | components/WeekView.tsx:115-117 | `getMinutes()` is the minute within the hour, in 0..59. |
| `Time.IsSameDay` | components/WeekView.tsx:84 | `isSameDay(a, b)` holds exactly when the same local midnight starts the days of `a` and `b`. |
| `Time.SetMinutes` | components/WeekView.tsx:117 | `setMinutes(m)` with `m` in 0..59 keeps the day and the hour and sets the minute to `m`. Larger values roll over, moving the instant by `m` minus the current minute. |
| `Time.SetHours` | components/DayView.tsx:33 | `setHours(h, m, 0, 0)` with an in-day clock time stays on the same day at clock time h:m. |
| `Time.ClockSplit` | components/WeekView.tsx:115 | An instant's clock time is its `getHours()` times 60 plus its `getMinutes()`. |
| `Time.StartOfWeek` | components/ScheduleView.tsx:105 | `startOfWeek(t, { weekStartsOn: 1 })` is midnight of a Monday, at most `t` and less than seven days before it. |
| `TimeSlots.SlotAt` | components/DayView.tsx:32-35 | Slot `i` starts at 08:00 + 30·i minutes on the given date and ends exactly 30 minutes later. Its label shows that clock time. |
| `TimeSlots.DaySlots` | components/DayView.tsx:28-39 | Exactly 20 slots, each 30 minutes long on the given day. Each ends where the next begins. The first starts at 08:00 and the last ends at 18:00. |
| `TimeSlots.GenerateTimeSlots` | components/DayView.tsx:28-39 | The nested hour/minute loop that pushes slots produces exactly that grid of 20 slots. |
| `TimeSlots.Overlaps` | components/DayView.tsx:41-43 | `overlaps` (copied at `components/WeekView.tsx:45-47`): for non-empty intervals, the strict test holds exactly when the later of the two starts lies inside both intervals. |
| `TimeSlots.OverlapsIffShared` | components/DayView.tsx:41-43 | For non-empty intervals, the strict test `aStart < bEnd && aEnd > bStart` holds iff the half-open intervals share a minute. Intervals that only touch do not overlap. |
| `TimeSlots.SlotRun` | components/DayView.tsx:30-43 | An interval overlaps slot `i` iff `i` lies between the slot holding its start and the slot holding its last minute. |
| `DayView.AppointmentsForSlot` | components/DayView.tsx:112-117 | Exactly the appointments overlapping the slot, in list order, with no calendar-day test. |
| `DayView.RowsOfAppointment` | components/DayView.tsx:112-128 | A row of the day grid lists an appointment iff the row lies in the run of slots the appointment overlaps, so it is listed in every row it overlaps. |
| `DayView.NineFifteenSpansThreeRows` | components/DayView.tsx:112-128 | An appointment from 09:15 to 10:15 is listed in the 09:00, 09:30 and 10:00 rows and no other. |
| `DayView.TouchingNotListed` | components/DayView.tsx:41-43 | An appointment ending exactly at a slot's start, or starting exactly at its end, is not listed there. |
| `WeekView.WeekDays` | components/WeekView.tsx:28-30 | Seven dates. Date `i` is the start date plus `i` calendar days at the same clock time. |
| `WeekView.HeaderRange` | components/WeekView.tsx:91 | The header runs from the week start to the date six days later. |
| `WeekView.CellSlot` | components/WeekView.tsx:113-117 | The cell slot is on the column's date at the row slot's clock time and ends 30 minutes later. For a grid row this is that row's slot on the column's date. |
| `WeekView.AppointmentsForDayAndSlot` | components/WeekView.tsx:80-85 | Exactly the appointments starting on the column's day that overlap the cell slot, in list order. |
| `WeekView.CellsOfAppointment` | components/WeekView.tsx:80-119 | Cell (column, row) lists an appointment iff it starts on that column's day and the row is in its run of overlapped slots. An appointment therefore appears only in its start day's column. |
| `WeekView.RowSlotsGiveCellSlots` | components/WeekView.tsx:78-117 | The row slots, made for the week start, have the clock times of the cell slots, which lie on their column's date. |
| `UseAppointments.DoctorFor` | hooks/useAppointments.ts:27-30 | The `doctor` memo is undefined for a missing or empty id. Otherwise it is the store's doctor with that id, or undefined when there is none. |
| `UseAppointments.Fetch` | hooks/useAppointments.ts:46-51 | Whichever filter is chosen (range with both ends, else the single date), the raw list holds exactly the store's appointments of the doctor with a start in the window, each as often as the store holds it, in store order. |
| `UseAppointments.LookupSpec` | hooks/useAppointments.ts:53-54 | Sorting the raw list and then populating it gives the stable sort by start of the store's appointments that are wanted and resolve. |
| `UseAppointments.Lookup` | hooks/useAppointments.ts:53-54 | The committed list is, field for field, the stable sort by start of the store's appointments of the doctor in the window whose references resolve. So it is sorted, it holds each such appointment as often as the store does, appointments that start together keep store order, and each record is its appointment populated. |
| `UseAppointments.AppointmentsState.constructor` | hooks/useAppointments.ts:23-25 | Initial state: no appointments, not loading, no error. |
| `UseAppointments.AppointmentsState.Mount` | hooks/useAppointments.ts:33 | An effect run starts mounted and changes no state cell. |
| `UseAppointments.AppointmentsState.Load` | hooks/useAppointments.ts:34-64 | When mounted, `loading` ends false. With no doctor the list becomes empty. A caught failure sets the error and keeps the list. Otherwise the list becomes the lookup result and the error is cleared. After cleanup, `loading` stays true, `error` null and the list untouched. |
| `UseAppointments.AppointmentsState.Cleanup` | hooks/useAppointments.ts:67 | Cleanup clears `mounted` and changes no state cell. |
| `ScheduleView.WeekRange` | components/ScheduleView.tsx:105-107 | `weekStart` is midnight of the Monday on or before the selected date. `weekEnd` is exactly six calendar days later at the same clock time: Sunday 00:00. |
| `ScheduleView.SundayAppointmentMissed` | components/ScheduleView.tsx:105-113 | With that `weekEnd`, a Sunday 10:00 appointment of the week is outside the fetched range, although the week grid has its column. |
| `ScheduleView.WeekEnd` | components/ScheduleView.tsx:106-107 | The intended week end is the last minute of the week's Sunday. |
| `ScheduleView.WeekEndCoversColumns` | components/ScheduleView.tsx:105-113 | With the intended end, the inclusive range admits exactly the instants on one of the seven week-grid dates. |
| `ScheduleView.HookQuery` | components/ScheduleView.tsx:109-114 | An empty doctor id is passed as undefined. The range is passed iff the view is week, so day view uses the day filter. |
| `ScheduleView.ShownBody` | components/ScheduleView.tsx:160-170 | Branch priority: loading, then no doctor, then empty list, then day grid, then week grid. |
| `ScheduleView.WeekViewLoadsItsColumns` | components/ScheduleView.tsx:105-114 | With the intended week end, week view loads exactly the doctor's resolvable appointments starting on one of the grid's seven dates, sorted by start. |

`AppointmentStatus` has exactly four constructors and `CalendarView` exactly
two (`Types`), mirroring `types/index.ts:53` and `types/index.ts:71`.

## Findings

| source | as written | input that shows it | evidently intended | confidence | as-written member | corrected member |
|---|---|---|---|---|---|---|
| components/ScheduleView.tsx:105-113 | `weekEnd` is the week's Monday 00:00 plus six days, i.e. Sunday 00:00, and the range filter is inclusive on start time | week view, an appointment of the selected doctor on that week's Sunday at 10:00: it is not fetched, so the grid's Sunday column stays empty | the range covers all seven columns, ending at the last moment of Sunday | high; not executed | `ScheduleView.SundayAppointmentMissed` (with `ScheduleView.WeekRange`) | `ScheduleView.WeekEndCoversColumns` (with `ScheduleView.WeekEnd`, used by `ScheduleView.WeekViewLoadsItsColumns`) |

## Left out

- Rendering: JSX, CSS style objects and the date-fns `format` labels. A slot
  label is the clock time it would show, and card colours appear only in the
  configuration table.
- Time zones and parsing: ISO strings parsed by `new Date(...)`, local
  versus UTC, daylight-saving days, and the `toISOString().slice(0, 10)` /
  `new Date(value)` round trip of the date input at
  `components/ScheduleView.tsx:132-133`. Instants are given minutes and
  every day has 1440 of them.
- Sub-minute precision: seconds and milliseconds are not modelled, so the
  zeroing of both by `setHours(h, m, 0, 0)` is implicit.
- Invalid `Date` values (NaN times) and the comparisons they would make.
- The internals of date-fns. Each helper is specified by day-number and
  minute arithmetic. `setDate(getDate() + 6)` on a copy of the week start is
  modelled as moving six calendar days, the month roll-over included.
- `data/mockData` is not part of this model. `MOCK_*` become the `Store`
  parameter. `getDoctorById` and `getPatientById` are taken to return the
  first record with the id.
- `AppointmentService.SortByStart`: the engine's sorting algorithm is not
  modelled. Insertion sort stands for it, which yields the unique stable
  sorted order the language requires.
- `getAllDoctors` returns the doctors collection unchanged; it is
  `Store.doctors` and has no member of its own.
- React plumbing: `useState`, `useMemo`, effect scheduling and the async
  function. `mounted` is a field that `Mount` and `Cleanup` set, and each
  `Load` runs to completion in one step.
- `UseAppointments.AppointmentsState.Load`: an exception is modelled only
  as one raised by the data source after the doctor check (the `fault`
  parameter). Nothing in the modelled lookup can throw.
- `TimeSlots.Overlaps`: the contract describes the test for non-empty intervals only; the predicate itself is the source's test for all inputs.
- `TimeSlots.OverlapsIffShared`: stated for non-empty intervals only. An
  appointment whose end precedes its start can still pass the strict test.
- `components/DoctorSelector.tsx`, `app/page.tsx`, `app/schedule/page.tsx`
  (UI glue), `app/api/appointments/route.ts` (a handler returning a fixed
  list) and `types/TimeSlot.ts` (a copy of the `TimeSlot` type).
