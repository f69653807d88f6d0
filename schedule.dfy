/** The date-and-time step: the fixed table of half-hour slots, which
    calendar days can be picked, and when the step may be left.

    A calendar date is a day number counted from 1 January 1970 in the
    visitor's local calendar, and the current instant is a millisecond
    count on the same local clock, so a day starts at `day * MsPerDay`. */
module Schedule {
  import opened Text
  import opened Options

  type Day = int
  type Instant = int

  const MsPerDay: nat := 86_400_000

  /** The appointment times offered by the time select, in order. */
  const TimeSlots: seq<string> := [
    "09:00", "09:30", "10:00", "10:30", "11:00", "11:30",
    "12:00", "12:30", "13:00", "13:30", "14:00", "14:30",
    "15:00", "15:30", "16:00", "16:30", "17:00", "17:30"
  ]

  /** The values the select can hold: the "Choose time" placeholder, whose
      value is the empty string, followed by the slots. */
  const TimeOptions: seq<string> := [""] + TimeSlots

  /** The zero-padded "HH:MM" label of a minute of the day. */
  function SlotLabel(minuteOfDay: nat): (r: string)
    requires minuteOfDay < 24 * 60
    ensures WellFormedTime(r)
  {
    var h, m := minuteOfDay / 60, minuteOfDay % 60;
    [DigitChar(h / 10), DigitChar(h % 10), ':', DigitChar(m / 10), DigitChar(m % 10)]
  }

  predicate WellFormedTime(s: string) {
    |s| == 5 && IsDigit(s[0]) && IsDigit(s[1]) && s[2] == ':' && IsDigit(s[3]) && IsDigit(s[4])
  }

  function DigitAt(s: string, i: nat): nat
    requires i < |s| && IsDigit(s[i])
  {
    s[i] as int - '0' as int
  }

  /** Minutes since midnight denoted by an "HH:MM" label. */
  function MinuteOfDay(s: string): nat
    requires WellFormedTime(s)
  {
    60 * (10 * DigitAt(s, 0) + DigitAt(s, 1)) + 10 * DigitAt(s, 3) + DigitAt(s, 4)
  }

  lemma MinuteOfDayOfLabel(minuteOfDay: nat)
    requires minuteOfDay < 24 * 60
    ensures MinuteOfDay(SlotLabel(minuteOfDay)) == minuteOfDay
  {
  }

  lemma MorningSlots(i: nat)
    requires i < 6
    ensures TimeSlots[i] == SlotLabel(9 * 60 + 30 * i)
  {
    assert i == 0 || i == 1 || i == 2 || i == 3 || i == 4 || i == 5;
  }

  lemma MiddaySlots(i: nat)
    requires 6 <= i < 12
    ensures TimeSlots[i] == SlotLabel(9 * 60 + 30 * i)
  {
    assert i == 6 || i == 7 || i == 8 || i == 9 || i == 10 || i == 11;
  }

  lemma AfternoonSlots(i: nat)
    requires 12 <= i < 18
    ensures TimeSlots[i] == SlotLabel(9 * 60 + 30 * i)
  {
    assert i == 12 || i == 13 || i == 14 || i == 15 || i == 16 || i == 17;
  }

  /** The table is exactly the labels of 09:00 plus whole half hours. */
  lemma TimeSlotsAreHalfHours()
    ensures |TimeSlots| == 18
    ensures forall i :: 0 <= i < 18 ==> TimeSlots[i] == SlotLabel(9 * 60 + 30 * i)
  {
    forall i | 0 <= i < 18 ensures TimeSlots[i] == SlotLabel(9 * 60 + 30 * i) {
      if i < 6 {
        MorningSlots(i);
      } else if i < 12 {
        MiddaySlots(i);
      } else {
        AfternoonSlots(i);
      }
    }
  }

  /** A label on the hour or half hour ends in "00" or "30". */
  lemma HalfHourLabelMinutes(minuteOfDay: nat)
    requires minuteOfDay < 24 * 60 && minuteOfDay % 30 == 0
    ensures SlotLabel(minuteOfDay)[3..] in {"00", "30"}
  {
    var m := minuteOfDay % 60;
    assert m == 0 || m == 30;
    assert SlotLabel(minuteOfDay)[3..] == [DigitChar(m / 10), DigitChar(m % 10)];
  }

  /** The label of a half hour is well formed, denotes that half hour and
      ends in "00" or "30". */
  lemma HalfHourSlot(m: nat)
    requires m < 24 * 60 && m % 30 == 0
    ensures WellFormedTime(SlotLabel(m)) && MinuteOfDay(SlotLabel(m)) == m
    ensures SlotLabel(m)[3..] in {"00", "30"}
  {
    MinuteOfDayOfLabel(m);
    HalfHourLabelMinutes(m);
  }

  /** Slot i is 9 * 60 + 30 * i minutes after midnight. */
  lemma TimeSlotMinute(i: nat)
    requires i < 18
    ensures WellFormedTime(TimeSlots[i]) && MinuteOfDay(TimeSlots[i]) == 9 * 60 + 30 * i
    ensures TimeSlots[i][3..] in {"00", "30"}
  {
    var m := 9 * 60 + 30 * i;
    assert m < 24 * 60 && m % 30 == 0;
    HalfHourSlot(m);
    TimeSlotsAreHalfHours();
    assert TimeSlots[i] == SlotLabel(m);
  }

  /** The 18 slots run from "09:00" to "17:30", each a zero-padded "HH:MM"
      on the hour or half hour, each 30 minutes after the one before. */
  lemma TimeSlotsTable()
    ensures |TimeSlots| == 18 && TimeSlots[0] == "09:00" && TimeSlots[17] == "17:30"
    ensures forall i :: 0 <= i < 18 ==>
      WellFormedTime(TimeSlots[i]) && TimeSlots[i][3..] in {"00", "30"}
    ensures forall i :: 0 <= i < 17 ==>
      MinuteOfDay(TimeSlots[i + 1]) == MinuteOfDay(TimeSlots[i]) + 30
  {
    forall i | 0 <= i < 18
      ensures WellFormedTime(TimeSlots[i]) && TimeSlots[i][3..] in {"00", "30"}
    {
      TimeSlotMinute(i);
    }
    forall i | 0 <= i < 17
      ensures MinuteOfDay(TimeSlots[i + 1]) == MinuteOfDay(TimeSlots[i]) + 30
    {
      TimeSlotMinute(i);
      TimeSlotMinute(i + 1);
    }
  }

  /** Slots are strictly increasing, so the table has no repeated time. */
  lemma TimeSlotsIncreasing(i: nat, j: nat)
    requires i < j < |TimeSlots|
    ensures WellFormedTime(TimeSlots[i]) && WellFormedTime(TimeSlots[j])
    ensures MinuteOfDay(TimeSlots[i]) < MinuteOfDay(TimeSlots[j])
    ensures TimeSlots[i] != TimeSlots[j]
  {
    TimeSlotMinute(i);
    TimeSlotMinute(j);
  }

  /** A value the time select can hold. */
  predicate IsTimeOption(t: string) {
    t in TimeOptions
  }

  /** Only the placeholder option has the empty value. */
  lemma EmptyOptionIsPlaceholder(t: string)
    requires t in TimeOptions && t != ""
    ensures t in TimeSlots
  {
  }

  /** `date && time`: a date is picked and the time is not the placeholder. */
  function DateTimeValid(date: Option<Day>, time: string): (valid: bool)
    ensures valid ==> date.Some?
    ensures IsTimeOption(time) ==> (valid <==> date.Some? && time in TimeSlots)
  {
    date.Some? && time != ""
  }

  /** The step's Continue button is disabled exactly when the step is
      incomplete, and the "Appointment scheduled for" line is rendered
      under the same condition as validity; Back has no `disabled` condition. */
  predicate DateTimeContinueDisabled(date: Option<Day>, time: string) {
    !DateTimeValid(date, time)
  }

  predicate SummaryShown(date: Option<Day>, time: string) {
    date.Some? && time != ""
  }

  lemma SummaryShownIffValid(date: Option<Day>, time: string)
    ensures SummaryShown(date, time) <==> DateTimeValid(date, time)
    ensures DateTimeContinueDisabled(date, time) <==> !SummaryShown(date, time)
  {
  }

  /** The placeholder time, or no date, blocks the step. */
  lemma PlaceholderTimeInvalid(date: Option<Day>)
    ensures !DateTimeValid(date, "")
    ensures !DateTimeValid(None, "09:00")
  {
  }

  /** 0 = Sunday ... 6 = Saturday, as Date.getDay(); day 0 was a Thursday. */
  function Weekday(d: Day): (w: nat)
    ensures w < 7
  {
    (d + 4) % 7
  }

  /** Consecutive days have consecutive weekdays, so every seventh day is
      a Sunday and a Monday follows each Sunday. */
  lemma WeekdayCycle(d: Day)
    ensures Weekday(d + 1) == (Weekday(d) + 1) % 7
    ensures Weekday(d + 7) == Weekday(d)
    ensures Weekday(d) == 0 ==> Weekday(d + 1) == 1
  {
  }

  function DayStart(d: Day): Instant {
    d * MsPerDay
  }

  /** The day that contains the instant `now`. */
  function Today(now: Instant): (d: Day)
    ensures DayStart(d) <= now < DayStart(d + 1)
  {
    now / MsPerDay
  }

  /** The calendar's `disabled` test: days starting before the current
      instant, and Sundays. */
  function DateDisabled(d: Day, now: Instant): (disabled: bool)
    ensures Weekday(d) == 0 ==> disabled
    ensures d < Today(now) ==> disabled
    ensures d > Today(now) ==> (disabled <==> Weekday(d) == 0)
  {
    DayStart(d) < now || Weekday(d) == 0
  }

  /** Every day before today is disabled, and so is today itself once its
      first millisecond has passed: same-day bookings are impossible except
      at the stroke of midnight. */
  lemma PastAndTodayDisabled(d: Day, now: Instant)
    requires d < Today(now) || (d == Today(now) && now % MsPerDay != 0)
    ensures DateDisabled(d, now)
  {
  }

  /** A future day that is not a Sunday can be picked. */
  lemma FutureWeekdayEnabled(d: Day, now: Instant)
    requires d > Today(now) && Weekday(d) != 0
    ensures !DateDisabled(d, now)
  {
  }

  /** The earliest day the calendar lets the visitor pick: it is enabled,
      every earlier day is disabled, and it is at most two days away. */
  function FirstOpenDay(now: Instant): (d: Day)
    ensures !DateDisabled(d, now)
    ensures forall e: Day :: e < d ==> DateDisabled(e, now)
    ensures Today(now) <= d <= Today(now) + 2
  {
    var t := Today(now);
    if now % MsPerDay == 0 && Weekday(t) != 0 then t
    else if now % MsPerDay == 0 then t + 1
    else if Weekday(t + 1) != 0 then t + 1
    else t + 2
  }
}
