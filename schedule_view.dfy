/**
 * ScheduleView: the Monday-start week around the selected date, the
 * parameters handed to the hook, and which body the view shows.
 */
module ScheduleView {

  import opened Types
  import opened Time
  import opened AppointmentService
  import opened WeekView
  import opened UseAppointments

  /**
   * `weekStart = startOfWeek(selectedDate, { weekStartsOn: 1 })`, then
   * `weekEnd = new Date(weekStart)` moved by `setDate(getDate() + 6)`.
   * The week ends at Sunday 00:00, the same clock time as its Monday start.
   */
  method WeekRange(selectedDate: int) returns (weekStart: int, weekEnd: int)
    ensures DaysSinceMonday(DayOf(weekStart)) == 0 && TimeOfDay(weekStart) == 0
    ensures weekStart <= selectedDate < AddDays(weekStart, DaysPerWeek)
    ensures DayOf(weekEnd) == DayOf(weekStart) + 6 && TimeOfDay(weekEnd) == TimeOfDay(weekStart)
    ensures DaysSinceMonday(DayOf(weekEnd)) == 6
  {
    weekStart := StartOfWeek(selectedDate);
    weekEnd := weekStart;
    weekEnd := AddDays(weekEnd, 6);
    AtSplits(DayOf(weekStart) + 6, 0);
    assert DaysSinceMonday(DayOf(weekStart) + 6) == 6;
  }

  /**
   * With the week as written, an appointment on the week's Sunday at 10:00
   * is not fetched for week view, although the week grid has a Sunday column
   * for it: the range ends at Sunday 00:00.
   */
  lemma SundayAppointmentMissed()
    ensures var monday := At(4, 0);
            var sunday := At(10, 0);
            var a := Appointment("a1", "p1", "d1", Checkup, At(10, 600), At(10, 630), Scheduled, None);
            var store := Store([], [], [a]);
            DaysSinceMonday(DayOf(monday)) == 0 &&
            DayOf(sunday) == DayOf(monday) + 6 && TimeOfDay(sunday) == 0 &&
            IsSameDay(a.startTime, WeekDays(monday)[6]) &&
            a !in ByDoctorAndDateRange(store, "d1", monday, sunday)
  {
    var monday, sunday := At(4, 0), At(10, 0);
    AtSplits(4, 0);
    AtSplits(10, 0);
    AtSplits(10, 600);
  }

  /** The intended end of the week: the last minute of its Sunday. */
  function WeekEnd(weekStart: int): (r: int)
    ensures DayOf(r) == DayOf(weekStart) + 6 && TimeOfDay(r) == MinutesPerDay - 1
  {
    AtSplits(DayOf(weekStart) + 6, MinutesPerDay - 1);
    At(DayOf(weekStart) + 6, MinutesPerDay - 1)
  }

  /**
   * With the intended end, the inclusive range [weekStart, WeekEnd] admits
   * exactly the instants that fall on one of the seven week-grid columns.
   */
  lemma WeekEndCoversColumns(weekStart: int, t: int)
    requires TimeOfDay(weekStart) == 0
    ensures weekStart <= t <= WeekEnd(weekStart) <==>
            exists di :: 0 <= di < DaysPerWeek && IsSameDay(t, WeekDays(weekStart)[di])
  {
    var days := WeekDays(weekStart);
    AtSplits(DayOf(weekStart), 0);
    DayTimeBounds(t);
    if weekStart <= t <= WeekEnd(weekStart) {
      var di := DayOf(t) - DayOf(weekStart);
      assert 0 <= di < DaysPerWeek && IsSameDay(t, days[di]);
    }
  }

  lemma DayTimeBounds(t: int)
    ensures At(DayOf(t), 0) <= t < At(DayOf(t) + 1, 0)
  {
    assert t == DayOf(t) * MinutesPerDay + TimeOfDay(t);
  }

  /**
   * The hook parameters: an empty doctor id becomes undefined, and the
   * range is passed only in week view.
   */
  function HookQuery(selectedDoctorId: string, selectedDate: int, view: CalendarView, weekStart: int, weekEnd: int)
    : (q: Query)
    ensures q.doctorId.None? <==> selectedDoctorId == ""
    ensures q.doctorId.Some? ==> q.doctorId.value == selectedDoctorId
    ensures HasDoctor(q.doctorId) <==> selectedDoctorId != ""
    ensures q.date == selectedDate
    ensures UsesRange(q) <==> view == WeekCalendar
    ensures UsesRange(q) ==> q.startDate.value == weekStart && q.endDate.value == weekEnd
    ensures view == DayCalendar ==> q.startDate.None? && q.endDate.None?
  {
    Query(if selectedDoctorId == "" then None else Some(selectedDoctorId),
          selectedDate,
          if view == WeekCalendar then Some(weekStart) else None,
          if view == WeekCalendar then Some(weekEnd) else None)
  }

  /** What the schedule body shows. */
  datatype Body = LoadingMessage | SelectDoctorMessage | NoAppointmentsMessage | DayGrid | WeekGrid

  /** The body, by priority: loading, no doctor, empty list, day view, week view. */
  function ShownBody(loading: bool, selectedDoctorId: string, count: nat, view: CalendarView): (b: Body)
    ensures b == LoadingMessage <==> loading
    ensures b == SelectDoctorMessage <==> !loading && selectedDoctorId == ""
    ensures b == NoAppointmentsMessage <==> !loading && selectedDoctorId != "" && count == 0
    ensures b == DayGrid <==> !loading && selectedDoctorId != "" && count > 0 && view == DayCalendar
    ensures b == WeekGrid <==> !loading && selectedDoctorId != "" && count > 0 && view == WeekCalendar
  {
    if loading then LoadingMessage
    else if selectedDoctorId == "" then SelectDoctorMessage
    else if count == 0 then NoAppointmentsMessage
    else if view == DayCalendar then DayGrid
    else
      assert view.WeekCalendar?;
      WeekGrid
  }

  /**
   * With the intended week end, week view loads exactly the selected
   * doctor's resolvable appointments that start on one of the grid's seven
   * days, sorted by start time.
   */
  lemma WeekViewLoadsItsColumns(store: Store, doctorId: string, selectedDate: int, a: Appointment)
    requires doctorId != ""
    ensures var weekStart := StartOfWeek(selectedDate);
            var q := HookQuery(doctorId, selectedDate, WeekCalendar, weekStart, WeekEnd(weekStart));
            var r := Lookup(store, q);
            SortedByStart(Bases(r)) &&
            (a in Bases(r) <==>
               a in store.appointments && a.doctorId == doctorId && Resolves(store, a) &&
               exists di :: 0 <= di < DaysPerWeek && IsSameDay(a.startTime, WeekDays(weekStart)[di]))
  {
    WeekEndCoversColumns(StartOfWeek(selectedDate), a.startTime);
  }
}
