/**
 * DayView: which appointments each slot row of the day grid lists.
 */
module DayView {

  import opened Types
  import opened Time
  import opened Seqs
  import opened TimeSlots

  /**
   * `getAppointmentsForSlot(slotStart, slotEnd)`: the appointments whose
   * interval overlaps the slot, in list order. No calendar-day test is made.
   */
  function AppointmentsForSlot(appointments: seq<PopulatedAppointment>, slotStart: int, slotEnd: int)
    : (r: seq<PopulatedAppointment>)
    ensures Selects(r, appointments,
                    (a: PopulatedAppointment) => Overlaps(a.startTime, a.endTime, slotStart, slotEnd))
  {
    var keep := (a: PopulatedAppointment) => Overlaps(a.startTime, a.endTime, slotStart, slotEnd);
    FilterSelects(appointments, keep);
    Filter(appointments, keep)
  }

  /**
   * Row `i` of the day grid lists an appointment exactly when `i` lies in
   * the run of slots from the one holding its start to the one holding its
   * last minute: a long appointment is listed in every row it overlaps.
   */
  lemma RowsOfAppointment(appointments: seq<PopulatedAppointment>, date: int, a: PopulatedAppointment, i: int)
    requires a in appointments
    requires 0 <= i < SlotsPerDay
    ensures var base := SetHours(date, FirstHour, 0);
            var slot := DaySlots(date)[i];
            a in AppointmentsForSlot(appointments, slot.start, slot.end) <==>
            (a.startTime - base) / SlotMinutes <= i <= (a.endTime - base - 1) / SlotMinutes
  {
    SlotRun(date, a.startTime, a.endTime, i);
  }

  /** 09:15–10:15 is listed in the 09:00, 09:30 and 10:00 rows and in no other row. */
  lemma NineFifteenSpansThreeRows(appointments: seq<PopulatedAppointment>, date: int, a: PopulatedAppointment)
    requires a in appointments
    requires a.startTime == SetHours(date, 9, 15) && a.endTime == SetHours(date, 10, 15)
    ensures forall i :: 0 <= i < SlotsPerDay ==>
              (a in AppointmentsForSlot(appointments, DaySlots(date)[i].start, DaySlots(date)[i].end) <==>
               2 <= i <= 4)
    ensures DaySlots(date)[2].caption == ClockLabel(9, 0) && DaySlots(date)[4].caption == ClockLabel(10, 0)
  {
    forall i | 0 <= i < SlotsPerDay
      ensures a in AppointmentsForSlot(appointments, DaySlots(date)[i].start, DaySlots(date)[i].end) <==> 2 <= i <= 4
    {
      RowsOfAppointment(appointments, date, a, i);
    }
  }

  /** An appointment that ends exactly when a slot starts is not listed in that slot, nor one that starts when it ends. */
  lemma TouchingNotListed(appointments: seq<PopulatedAppointment>, date: int, a: PopulatedAppointment, i: int)
    requires 0 <= i < SlotsPerDay
    requires a.endTime == DaySlots(date)[i].start || a.startTime == DaySlots(date)[i].end
    ensures a !in AppointmentsForSlot(appointments, DaySlots(date)[i].start, DaySlots(date)[i].end)
  {
  }
}
