/** The staffed-hours window that gates escalations and, when armed, real-user chat. */
module Coverage {

  /** A moment in the window's own time zone: ISO weekday (1 is Monday) and hour. */
  datatype LocalTime = LocalTime(weekday: int, hour: int) {
    predicate Valid() { 1 <= weekday <= 7 && 0 <= hour <= 23 }
  }

  datatype Days = EveryDay | OnDays(days: set<int>)
  datatype Window = Always | Hours(open: int, close: int, days: Days) {
    /** What the constructor accepts. */
    predicate Valid() {
      Hours? ==> 0 <= open <= 23 && 1 <= close <= 24 && open != close
                 && (days.OnDays? ==> days.days != {} && forall d :: d in days.days ==> 1 <= d <= 7)
    }
  }

  predicate Committed(days: Days, weekday: int) {
    days.EveryDay? || weekday in days.days
  }

  function DayBefore(weekday: int): int {
    if weekday == 1 then 7 else weekday - 1
  }

  predicate IsOpen(w: Window, t: LocalTime) {
    if w.Always? then true
    else if !Committed(w.days, t.weekday)
            && (!(w.open > w.close && t.hour < w.close) || !Committed(w.days, DayBefore(t.weekday))) then false
    else if w.open < w.close then w.open <= t.hour < w.close
    else t.hour >= w.open || t.hour < w.close
  }

  /** Whether a shift starts on this weekday; 0 is the Sunday before the week. */
  predicate Starts(w: Window, weekday: int)
    requires w.Hours?
  {
    match w.days
    case EveryDay => true
    case OnDays(days) => weekday in days || (weekday == 0 && 7 in days)
  }

  /** The documented reading: a moment is staffed when a shift that opened on a committed day covers it. */
  predicate ShiftCovers(w: Window, t: LocalTime) {
    if w.Always? then true
    else if w.open < w.close then Starts(w, t.weekday) && w.open <= t.hour < w.close
    else (Starts(w, t.weekday) && w.open <= t.hour) || (Starts(w, t.weekday - 1) && t.hour < w.close)
  }

  /** A staffed moment is never reported closed. */
  lemma OpenWheneverStaffed(w: Window, t: LocalTime)
    requires w.Valid() && t.Valid() && ShiftCovers(w, t)
    ensures IsOpen(w, t)
  {
  }

  /** The code and the documented reading agree except in the early-morning tail of a wrapping window on a
      committed day whose eve is not committed. */
  lemma OpenMatchesShiftsExactlyOutsideTheTail(w: Window, t: LocalTime)
    requires w.Valid() && t.Valid()
    ensures (IsOpen(w, t) <==> ShiftCovers(w, t)) <==>
            !(w.Hours? && w.open > w.close && t.hour < w.close
              && Starts(w, t.weekday) && !Starts(w, t.weekday - 1))
  {
  }

  /** Night cover 22 to 6 committed for Monday is reported open at 03:00 on Monday. */
  lemma MondayTailWitness()
    ensures var w := Hours(22, 6, OnDays({1})); var t := LocalTime(1, 3);
            w.Valid() && t.Valid() && IsOpen(w, t) && !ShiftCovers(w, t)
  {
  }
}
