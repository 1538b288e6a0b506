/**
 * WeekView: the seven day columns of the week grid and which appointments
 * each (day, slot) cell lists.
 */
module WeekView {

  import opened Types
  import opened Time
  import opened Seqs
  import opened TimeSlots

  /** `getWeekDays(start)`: seven dates, column `i` being `start` plus `i` days. */
  function WeekDays(start: int): (days: seq<int>)
    ensures |days| == DaysPerWeek
    ensures forall i :: 0 <= i < DaysPerWeek ==>
              DayOf(days[i]) == DayOf(start) + i && TimeOfDay(days[i]) == TimeOfDay(start)
  {
    seq(DaysPerWeek, i => AddDays(start, i))
  }

  /** The header range: from the first column's date to the last one's, six days later. */
  lemma HeaderRange(start: int)
    ensures WeekDays(start)[0] == start
    ensures DayOf(WeekDays(start)[DaysPerWeek - 1]) - DayOf(WeekDays(start)[0]) == 6
  {
    AtSplits(DayOf(start), TimeOfDay(start));
  }

  /**
   * The slot of cell (day, row), built in place: a copy of the column's date
   * set to the row slot's hour and minute, and a copy of that moved to 30
   * minutes past its minute.
   */
  method CellSlot(day: int, rowStart: int) returns (slotStart: int, slotEnd: int)
    ensures DayOf(slotStart) == DayOf(day)
    ensures TimeOfDay(slotStart) == TimeOfDay(rowStart)
    ensures slotEnd == slotStart + SlotMinutes
    ensures forall i :: 0 <= i < SlotsPerDay && TimeOfDay(rowStart) == SlotOffset(i) ==>
              slotStart == SlotAt(day, i).start && slotEnd == SlotAt(day, i).end
  {
    ClockSplit(rowStart);
    slotStart := day;
    slotStart := SetHours(slotStart, HourOf(rowStart), MinuteOf(rowStart));
    slotEnd := slotStart;
    slotEnd := SetMinutes(slotEnd, MinuteOf(slotStart) + SlotMinutes);
    AtSplits(DayOf(day), TimeOfDay(rowStart));
  }

  /**
   * `getAppointmentsForDayAndSlot(day, slotStart, slotEnd)`: the appointments
   * that start on `day` and overlap the slot, in list order.
   */
  function AppointmentsForDayAndSlot(appointments: seq<PopulatedAppointment>, day: int, slotStart: int, slotEnd: int)
    : (r: seq<PopulatedAppointment>)
    ensures Selects(r, appointments,
                    (a: PopulatedAppointment) => DayOf(a.startTime) == DayOf(day) &&
                                                 Overlaps(a.startTime, a.endTime, slotStart, slotEnd))
  {
    var keep := (a: PopulatedAppointment) => IsSameDay(a.startTime, day) &&
                                             Overlaps(a.startTime, a.endTime, slotStart, slotEnd);
    FilterSelects(appointments, keep);
    Filter(appointments, keep)
  }

  /**
   * Cell (column `di`, row `si`) of the week of `start` lists an appointment
   * exactly when it starts on column `di`'s day and `si` lies in the run of
   * slots it overlaps on that day. So an appointment appears in one column
   * only, the column of its start day, even if it runs past midnight.
   */
  lemma CellsOfAppointment(appointments: seq<PopulatedAppointment>, start: int, a: PopulatedAppointment, di: int, si: int)
    requires a in appointments
    requires 0 <= di < DaysPerWeek && 0 <= si < SlotsPerDay
    ensures var day := WeekDays(start)[di];
            var slot := SlotAt(day, si);
            var base := SetHours(day, FirstHour, 0);
            a in AppointmentsForDayAndSlot(appointments, day, slot.start, slot.end) <==>
            DayOf(a.startTime) == DayOf(start) + di &&
            (a.startTime - base) / SlotMinutes <= si <= (a.endTime - base - 1) / SlotMinutes
  {
    SlotRun(WeekDays(start)[di], a.startTime, a.endTime, si);
  }

  /** Every cell's slot is the day grid's slot of that row on the column's date. */
  lemma RowSlotsGiveCellSlots(start: int, di: int, si: int)
    requires 0 <= di < DaysPerWeek && 0 <= si < SlotsPerDay
    ensures TimeOfDay(DaySlots(start)[si].start) == TimeOfDay(SlotAt(WeekDays(start)[di], si).start)
    ensures IsSameDay(SlotAt(WeekDays(start)[di], si).start, WeekDays(start)[di])
  {
  }
}
