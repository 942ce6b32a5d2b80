/** Weekly opening hours with dated overrides (apps/voice-worker/parlio_voice/models.py). */
module Opening {
  import opened Wrappers
  import opened Clock

  datatype DayHours = DayHours(open: TimeOfDay, close: TimeOfDay)

  datatype Holiday = Holiday(day: int, closed: bool, hours: Option<DayHours>)

  /** `weekly` is keyed by weekday, Monday being 0; a missing day is closed. */
  datatype Schedule = Schedule(weekly: map<int, DayHours>, always: bool, holidays: seq<Holiday>)

  const AROUND_THE_CLOCK := Schedule(map[], true, [])

  /** Opening and closing instants of one day. */
  datatype Window = Window(open: int, close: int)

  /** The first override entered for a day is the one that counts. */
  function HolidayOn(holidays: seq<Holiday>, day: int): (r: Option<Holiday>)
    ensures r.Some? ==> r.value in holidays && r.value.day == day
    ensures r.None? ==> forall h | h in holidays :: h.day != day
  {
    if holidays == [] then None
    else if holidays[0].day == day then Some(holidays[0])
    else HolidayOn(holidays[1..], day)
  }

  /** Hours in force on a day: the override's own, the weekly ones, or none. */
  function HoursOn(s: Schedule, day: int): Option<DayHours> {
    var weekly := if Weekday(day) in s.weekly then Some(s.weekly[Weekday(day)]) else None;
    match HolidayOn(s.holidays, day)
    case None => weekly
    case Some(h) => if h.closed then None else if h.hours.Some? then h.hours else weekly
  }

  function DayWindow(s: Schedule, day: int): (w: Option<Window>)
    ensures w.Some? ==> Midnight(day) <= w.value.open < w.value.close < Midnight(day + 1)
  {
    if s.always then
      Some(Window(Midnight(day), Midnight(day) + 23 * HOUR + 59 * MINUTE))
    else
      match HoursOn(s, day)
      case None => None
      case Some(h) =>
        if h.open >= h.close then None
        else Some(Window(Midnight(day) + h.open, Midnight(day) + h.close))
  }

  /** The window from midnight to a minute before the next: what an always-open schedule gives. */
  function AllDay(day: int): Option<Window> {
    Some(Window(Midnight(day), Midnight(day) + 23 * HOUR + 59 * MINUTE))
  }

  /** A day marked as closed is closed exactly when the schedule is not always open. */
  lemma ClosedHolidayHonoured(s: Schedule, day: int)
    requires HolidayOn(s.holidays, day).Some? && HolidayOn(s.holidays, day).value.closed
    ensures DayWindow(s, day).None? <==> !s.always
  {
  }

  /** A day with its own hours has just those, or none if they are empty, unless the schedule is always open. */
  lemma HolidayHoursHonoured(s: Schedule, day: int)
    requires var h := HolidayOn(s.holidays, day); h.Some? && !h.value.closed && h.value.hours.Some?
    ensures var own := HolidayOn(s.holidays, day).value.hours.value;
      var wanted := if own.open < own.close then Some(Window(Midnight(day) + own.open, Midnight(day) + own.close)) else None;
      DayWindow(s, day) == wanted <==> !s.always || wanted == AllDay(day)
  {
  }

  /** An override without hours of its own leaves the weekly ones, and again only if the schedule is not always open. */
  lemma BareHolidayKeepsWeek(s: Schedule, day: int)
    requires var h := HolidayOn(s.holidays, day); h.Some? && !h.value.closed && h.value.hours.None?
    ensures var week := DayWindow(s.(holidays := [], always := false), day);
      DayWindow(s, day) == week <==> !s.always || week == AllDay(day)
  {
  }

  /** On a day without an override the week decides: open as entered for that weekday, if it opens before it closes. */
  lemma WeekHonoured(s: Schedule, day: int, hours: DayHours)
    requires !s.always && forall h | h in s.holidays :: h.day != day
    ensures DayWindow(s, day) == Some(Window(Midnight(day) + hours.open, Midnight(day) + hours.close))
            <==> day % 7 in s.weekly && s.weekly[day % 7] == hours && hours.open < hours.close
    ensures DayWindow(s, day).None? <==> day % 7 in s.weekly ==> s.weekly[day % 7].close <= s.weekly[day % 7].open
  {
  }

  /** Always open is open from midnight to a minute before the next, every day. */
  lemma AlwaysOpen(s: Schedule, day: int)
    ensures s.always ==> DayWindow(s, day) == AllDay(day)
  {
  }
}
