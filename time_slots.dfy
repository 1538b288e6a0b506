/**
 * The fixed rendering grid both calendar views share: twenty 30-minute
 * slots from 08:00 to 18:00 on a given day, and the half-open overlap test
 * that places an appointment into a slot. DayView and WeekView carry
 * identical copies of this code; it is modelled once here.
 */
module TimeSlots {

  import opened Types
  import opened Time

  const FirstHour: int := 8
  const EndHour: int := 18
  const SlotsPerDay: int := 20

  /** Clock time (minutes after midnight) at which slot `i` starts: 08:00 + 30·i. */
  function SlotOffset(i: int): int {
    FirstHour * MinutesPerHour + i * SlotMinutes
  }

  /** Slot `i` on the calendar day of `date`. */
  function SlotAt(date: int, i: int): (slot: TimeSlot)
    requires 0 <= i < SlotsPerDay
    ensures DayOf(slot.start) == DayOf(date) && TimeOfDay(slot.start) == SlotOffset(i)
    ensures slot.end == slot.start + SlotMinutes
    ensures slot.caption == ClockLabel(FirstHour + i / 2, (i % 2) * SlotMinutes)
  {
    var start := At(DayOf(date), SlotOffset(i));
    var hours := DayOf(date) * 24 + FirstHour + i / 2;
    AtSplits(DayOf(date), SlotOffset(i));
    assert start == hours * MinutesPerHour + (i % 2) * SlotMinutes;
    HourSplit(hours, (i % 2) * SlotMinutes);
    assert hours % 24 == FirstHour + i / 2;
    TimeSlot(start, AddMinutes(start, SlotMinutes), ClockLabel(HourOf(start), MinuteOf(start)))
  }

  /**
   * The grid of one day: 20 slots of 30 minutes, each ending where the next
   * begins, from 08:00 to 18:00 on the day of `date`.
   */
  function DaySlots(date: int): (slots: seq<TimeSlot>)
    ensures |slots| == SlotsPerDay
    ensures forall i :: 0 <= i < SlotsPerDay ==> slots[i] == SlotAt(date, i)
    ensures forall i :: 0 <= i < SlotsPerDay ==> IsSameDay(slots[i].start, date) && slots[i].end - slots[i].start == SlotMinutes
    ensures forall i :: 0 <= i < SlotsPerDay - 1 ==> slots[i].end == slots[i + 1].start
    ensures slots[0].start == SetHours(date, FirstHour, 0)
    ensures slots[SlotsPerDay - 1].end == SetHours(date, EndHour, 0)
  {
    var slots := seq(SlotsPerDay, i requires 0 <= i < SlotsPerDay => SlotAt(date, i));
    assert forall i :: 0 <= i < SlotsPerDay - 1 ==> slots[i].end == slots[i + 1].start by {
      forall i | 0 <= i < SlotsPerDay - 1 ensures slots[i].end == slots[i + 1].start {
        AtSplits(DayOf(date), SlotOffset(i));
        AtSplits(DayOf(date), SlotOffset(i + 1));
      }
    }
    AtSplits(DayOf(date), SlotOffset(SlotsPerDay - 1));
    slots
  }

  /**
   * `generateTimeSlots(date)`: for each hour from 8 to 17 and each minute
   * of [0, 30], a slot starting at that clock time on the day of `date`.
   */
  method GenerateTimeSlots(date: int) returns (slots: seq<TimeSlot>)
    ensures slots == DaySlots(date)
  {
    slots := [];
    for hour := FirstHour to EndHour
      invariant slots == DaySlots(date)[..2 * (hour - FirstHour)]
    {
      var minutes := [0, 30];
      for k := 0 to |minutes|
        invariant slots == DaySlots(date)[..2 * (hour - FirstHour) + k]
      {
        var start := SetHours(date, hour, minutes[k]);
        var end := AddMinutes(start, SlotMinutes);
        assert hour * MinutesPerHour + minutes[k] == SlotOffset(2 * (hour - FirstHour) + k);
        slots := slots + [TimeSlot(start, end, ClockLabel(HourOf(start), MinuteOf(start)))];
      }
    }
  }

  /**
   * `overlaps(aStart, aEnd, bStart, bEnd)`: the strict half-open test. For
   * non-empty intervals it holds exactly when the later of the two starts
   * lies inside both intervals.
   */
  predicate Overlaps(aStart: int, aEnd: int, bStart: int, bEnd: int): (b: bool)
    ensures aStart < aEnd && bStart < bEnd ==>
              (b <==> var t := if aStart < bStart then bStart else aStart;
                      Within(t, aStart, aEnd) && Within(t, bStart, bEnd))
  {
    aStart < bEnd && aEnd > bStart
  }

  /** Minute `t` lies in the half-open interval [start, end). */
  predicate Within(t: int, start: int, end: int) {
    start <= t < end
  }

  /**
   * For non-empty intervals the test says exactly that [aStart, aEnd) and
   * [bStart, bEnd) share a minute; intervals that only touch do not overlap.
   */
  lemma OverlapsIffShared(aStart: int, aEnd: int, bStart: int, bEnd: int)
    requires aStart < aEnd && bStart < bEnd
    ensures Overlaps(aStart, aEnd, bStart, bEnd) <==>
            exists t :: Within(t, aStart, aEnd) && Within(t, bStart, bEnd)
  {
    if Overlaps(aStart, aEnd, bStart, bEnd) {
      var t := if aStart < bStart then bStart else aStart;
      assert Within(t, aStart, aEnd) && Within(t, bStart, bEnd);
    }
  }

  /**
   * An interval overlaps slot `i` of a day exactly when `i` lies in the run
   * of slots from the one holding its start to the one holding its last
   * minute (measured from 08:00 of that day; the run may leave the grid).
   */
  lemma SlotRun(date: int, start: int, end: int, i: int)
    requires 0 <= i < SlotsPerDay
    ensures var base := At(DayOf(date), SlotOffset(0));
            Overlaps(start, end, SlotAt(date, i).start, SlotAt(date, i).end) <==>
            (start - base) / SlotMinutes <= i <= (end - base - 1) / SlotMinutes
  {
    var base := At(DayOf(date), SlotOffset(0));
    var slot := SlotAt(date, i);
    AtSplits(DayOf(date), SlotOffset(i));
    assert slot.start == base + i * SlotMinutes;
    var x, y := start - base, end - base - 1;
    assert x == (x / SlotMinutes) * SlotMinutes + x % SlotMinutes;
    assert y == (y / SlotMinutes) * SlotMinutes + y % SlotMinutes;
  }
}
