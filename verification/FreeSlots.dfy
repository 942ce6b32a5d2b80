/**
 Which start times the booking rules let the assistant offer, and the independent check made when
 a caller picks one (apps/api/parlio_api/calendar.py).
 */
module FreeSlots {
  import opened Wrappers
  import opened Clock
  import opened Opening
  import opened Ordered

  datatype Slot = Slot(start: int, end: int) {
    predicate Overlaps(other: Slot) {
      start < other.end && other.start < end
    }

    /** The slot with the gap kept free either side. */
    function Padded(pad: int): Slot {
      Slot(start - pad, end + pad)
    }
  }

  function Starts(slots: seq<Slot>): (r: seq<int>)
    ensures |r| == |slots| && forall i | 0 <= i < |r| :: r[i] == slots[i].start
  {
    seq(|slots|, i requires 0 <= i < |slots| => slots[i].start)
  }

  /** No busy period touches the slot. */
  predicate Clear(busy: seq<Slot>, slot: Slot) {
    forall b | b in busy :: !slot.Overlaps(b)
  }

  /** Field bounds are the ones the source validates. */
  datatype ServiceFields = ServiceFields(minutes: int, emergency: bool)
  type Service = s: ServiceFields | 5 <= s.minutes <= 480 witness ServiceFields(60, false)

  datatype RuleFields = RuleFields(alignMinutes: int, minNoticeMinutes: int, maxDaysAhead: int,
                                   emergencyAnyTime: bool, slotMinutes: int, bufferMinutes: int)
  type Rules = r: RuleFields |
      && 0 <= r.alignMinutes <= 120
      && 0 <= r.minNoticeMinutes <= 7 * 24 * 60
      && 1 <= r.maxDaysAhead <= 365
      && 5 <= r.slotMinutes <= 480
      && 0 <= r.bufferMinutes <= 120
    witness RuleFields(30, 0, 30, true, 30, 0)

  /** One question put to the diary: rules in force, the appointment wanted, and the time now. */
  datatype Query = Query(rules: Rules, hours: Schedule, service: Option<Service>, duration: Option<nat>, now: int)
  {
    function Length(): (d: int)
      ensures 0 < d
    {
      if service.Some? then service.value.minutes * MINUTE
      else if duration.Some? && duration.value != 0 then duration.value * MINUTE
      else rules.slotMinutes * MINUTE
    }

    /** An emergency service the tenant lets ignore hours, grid and notice. */
    predicate AnyTime() {
      service.Some? && service.value.emergency && rules.emergencyAnyTime
    }

    function Pad(): (p: int)
      ensures 0 <= p
    {
      rules.bufferMinutes * MINUTE
    }

    function Grid(): (g: int)
      ensures 0 <= g
    {
      if AnyTime() then 0 else rules.alignMinutes * MINUTE
    }

    function Step(): (s: int)
      ensures 0 < s
    {
      if Grid() != 0 then Grid() else if AnyTime() then 15 * MINUTE else rules.slotMinutes * MINUTE
    }

    function Earliest(start: int): int {
      Max(start, if AnyTime() then now else now + rules.minNoticeMinutes * MINUTE)
    }

    function Horizon(end: int): int {
      Min(end, now + rules.maxDaysAhead * DAY)
    }

    function WindowOn(day: int): (w: Option<Window>)
      ensures w.Some? ==> Midnight(day) <= w.value.open < w.value.close < Midnight(day + 1)
    {
      DayWindow(if AnyTime() then AROUND_THE_CLOCK else hours, day)
    }

    function SlotAt(t: int): Slot {
      Slot(t, t + Length())
    }
  }

  /** Rounds `t` up to the next grid point, counted from the midnight before it. */
  function Align(t: int, grid: int): (r: int)
    requires 0 <= grid
    ensures t <= r
  {
    if grid == 0 then t
    else
      var over := (t - Midnight(DayOf(t))) % grid;
      if over == 0 then t else t + (grid - over)
  }

  /** Why a start time may not be booked. */
  datatype Refusal = TimePassed | NeedsNotice | TooFarAhead | ClosedThatDay | OutsideHours | OffGrid

  /** The check at booking time, which does not look at the diary. */
  function SlotAllowed(q: Query, start: int): Option<Refusal> {
    if q.AnyTime() then
      if start >= q.now - 5 * MINUTE then None else Some(TimePassed)
    else if start < q.now + q.rules.minNoticeMinutes * MINUTE then Some(NeedsNotice)
    else if start > q.now + q.rules.maxDaysAhead * DAY then Some(TooFarAhead)
    else
      match DayWindow(q.hours, DayOf(start))
      case None => Some(ClosedThatDay)
      case Some(w) =>
        if start < w.open || start + q.Length() > w.close then Some(OutsideHours)
        else if Align(start, q.rules.alignMinutes * MINUTE) != start then Some(OffGrid)
        else None
  }

  /** The first start the search tries in an opening window. */
  function FirstCursor(q: Query, w: Window, start: int): int {
    Align(Max(w.open, q.Earliest(start)), q.Grid())
  }

  /**
   The starts on offer, with no reference to the search: `t` is a whole number of steps after the
   first start of its own day's window, the appointment ends by closing time and by the horizon,
   and the padded appointment misses every busy period.
   */
  ghost predicate Offerable(q: Query, busy: seq<Slot>, start: int, end: int, t: int) {
    var w := q.WindowOn(DayOf(t));
    && w.Some?
    && FirstCursor(q, w.value, start) <= t
    && (t - FirstCursor(q, w.value, start)) % q.Step() == 0
    && t + q.Length() <= w.value.close
    && t + q.Length() <= q.Horizon(end)
    && Clear(busy, q.SlotAt(t).Padded(q.Pad()))
  }

  ghost function OfferableStarts(q: Query, busy: seq<Slot>, start: int, end: int): iset<int> {
    iset t | Offerable(q, busy, start, end, t)
  }

  /** The nested day and cursor search is exact: it lists the first `limit` offerable starts. */
  method FindFreeSlots(q: Query, busy: seq<Slot>, start: int, end: int, limit: nat)
    returns (out: seq<Slot>)
    ensures forall s | s in out :: s == q.SlotAt(s.start)
    ensures FirstOf(Starts(out), limit, OfferableStarts(q, busy, start, end))
  {
    var length, grid, step, pad := q.Length(), q.Grid(), q.Step(), q.Pad();
    var earliest, horizon := q.Earliest(start), q.Horizon(end);
    out := [];
    var day, last := DayOf(start), DayOf(horizon);
    ghost var frontier := Midnight(day);
    SearchBegins(q, busy, start, end, limit);
    while day <= last && |out| < limit
      invariant forall s | s in out :: s == q.SlotAt(s.start)
      invariant Searched(q, busy, start, end, limit, Starts(out), frontier)
      invariant |out| <= limit && (|out| < limit ==> frontier == Midnight(day))
      decreases last - day
    {
      var window := q.WindowOn(day);
      if window.None? {
        DayIsClosed(q, busy, start, end, limit, Starts(out), day);
        frontier, day := Midnight(day + 1), day + 1;
        continue;
      }
      var Window(open, close) := window.value;
      var cursor := Align(Max(open, earliest), grid);
      DayOpens(q, busy, start, end, limit, Starts(out), day);
      frontier := Min(cursor, Midnight(day + 1));
      while cursor + length <= close && |out| < limit
        invariant InStep(q, start, day, cursor)
        invariant frontier == Min(cursor, Midnight(day + 1))
        invariant forall s | s in out :: s == q.SlotAt(s.start)
        invariant |out| <= limit
        invariant Searched(q, busy, start, end, limit, Starts(out), frontier)
        decreases close - cursor
      {
        var cand := Slot(cursor, cursor + length);
        var padded := Slot(cursor - pad, cursor + length + pad);
        var fits := cand.start >= earliest && cand.end <= horizon;
        CursorTried(q, busy, start, end, limit, Starts(out), day, cursor);
        if fits && Clear(busy, padded) {
          assert Starts(out + [cand]) == Starts(out) + [cursor];
          out := out + [cand];
        }
        cursor := cursor + step;
        frontier := Min(cursor, Midnight(day + 1));
      }
      if |out| < limit {
        DayCloses(q, busy, start, end, limit, Starts(out), day, cursor);
        frontier := Midnight(day + 1);
      }
      day := day + 1;
    }
    SearchEnds(q, busy, start, end, limit, Starts(out), frontier);
  }

  ghost predicate Searched(q: Query, busy: seq<Slot>, start: int, end: int, limit: nat, found: seq<int>, frontier: int)
  {
    Progress(found, limit, OfferableStarts(q, busy, start, end), frontier)
  }

  /** The cursor has a place in the day's progression of starts. */
  ghost predicate InStep(q: Query, start: int, day: int, cursor: int) {
    var w := q.WindowOn(day);
    && w.Some?
    && FirstCursor(q, w.value, start) <= cursor
    && (cursor - FirstCursor(q, w.value, start)) % q.Step() == 0
  }

  lemma SearchBegins(q: Query, busy: seq<Slot>, start: int, end: int, limit: nat)
    ensures Searched(q, busy, start, end, limit, [], Midnight(DayOf(start)))
  {
    forall t | Offerable(q, busy, start, end, t)
      ensures Midnight(DayOf(start)) <= t
    {
      NotBeforeStart(q, busy, start, end, t);
    }
  }

  lemma NotBeforeStart(q: Query, busy: seq<Slot>, start: int, end: int, t: int)
    requires Offerable(q, busy, start, end, t)
    ensures start <= t && Midnight(DayOf(start)) <= t
  {
    DayBounds(start);
  }

  lemma SearchEnds(q: Query, busy: seq<Slot>, start: int, end: int, limit: nat, found: seq<int>, frontier: int)
    requires Searched(q, busy, start, end, limit, found, frontier)
    requires |found| == limit || frontier >= Midnight(DayOf(q.Horizon(end)) + 1)
    ensures FirstOf(found, limit, OfferableStarts(q, busy, start, end))
  {
    DayBounds(q.Horizon(end));
    EndsByHorizon(q, busy, start, end);
    ProgressDone(found, limit, OfferableStarts(q, busy, start, end), frontier);
  }

  lemma EndsByHorizon(q: Query, busy: seq<Slot>, start: int, end: int)
    ensures forall t | t in OfferableStarts(q, busy, start, end) :: t < q.Horizon(end)
  {
  }

  lemma DayIsClosed(q: Query, busy: seq<Slot>, start: int, end: int, limit: nat, found: seq<int>, day: int)
    requires Searched(q, busy, start, end, limit, found, Midnight(day)) && q.WindowOn(day).None?
    ensures Searched(q, busy, start, end, limit, found, Midnight(day + 1))
  {
    forall t | Midnight(day) <= t < Midnight(day + 1)
      ensures !Offerable(q, busy, start, end, t)
    {
      DayUnique(day, t);
    }
  }

  /** Rounding up to the grid may carry the first cursor past midnight; nothing later is skipped. */
  lemma DayOpens(q: Query, busy: seq<Slot>, start: int, end: int, limit: nat, found: seq<int>, day: int)
    requires Searched(q, busy, start, end, limit, found, Midnight(day)) && q.WindowOn(day).Some?
    ensures InStep(q, start, day, FirstCursor(q, q.WindowOn(day).value, start))
    ensures Searched(q, busy, start, end, limit, found,
                     Min(FirstCursor(q, q.WindowOn(day).value, start), Midnight(day + 1)))
  {
    forall t | Midnight(day) <= t < Min(FirstCursor(q, q.WindowOn(day).value, start), Midnight(day + 1))
      ensures !Offerable(q, busy, start, end, t)
    {
      DayUnique(day, t);
    }
  }

  lemma DayCloses(q: Query, busy: seq<Slot>, start: int, end: int, limit: nat, found: seq<int>, day: int, cursor: int)
    requires q.WindowOn(day).Some? && cursor + q.Length() > q.WindowOn(day).value.close
    requires InStep(q, start, day, cursor)
    requires Searched(q, busy, start, end, limit, found, Min(cursor, Midnight(day + 1)))
    ensures Searched(q, busy, start, end, limit, found, Midnight(day + 1))
  {
    forall t | Min(cursor, Midnight(day + 1)) <= t < Midnight(day + 1)
      ensures !Offerable(q, busy, start, end, t)
    {
      DayUnique(day, t);
    }
  }

  /** One turn of the inner loop: the cursor is kept exactly when it is offerable. */
  lemma CursorTried(q: Query, busy: seq<Slot>, start: int, end: int, limit: nat, found: seq<int>, day: int, cursor: int)
    requires InStep(q, start, day, cursor) && cursor + q.Length() <= q.WindowOn(day).value.close
    requires |found| < limit && Searched(q, busy, start, end, limit, found, Min(cursor, Midnight(day + 1)))
    ensures InStep(q, start, day, cursor + q.Step())
    ensures
      var keep := q.Earliest(start) <= cursor && cursor + q.Length() <= q.Horizon(end)
                  && Clear(busy, q.SlotAt(cursor).Padded(q.Pad()));
      Searched(q, busy, start, end, limit, if keep then found + [cursor] else found,
               Min(cursor + q.Step(), Midnight(day + 1)))
  {
    var S := OfferableStarts(q, busy, start, end);
    var next := Min(cursor + q.Step(), Midnight(day + 1));
    ProgressionStep(FirstCursor(q, q.WindowOn(day).value, start), q.Step(), cursor);
    CursorIsOfferable(q, busy, start, end, day, cursor);
    OnlyCursor(q, busy, start, end, day, cursor);
    if cursor in S {
      ProgressTake(found, limit, S, cursor, next);
    } else {
      ProgressSkip(found, limit, S, cursor, next);
    }
  }

  lemma CursorIsOfferable(q: Query, busy: seq<Slot>, start: int, end: int, day: int, cursor: int)
    requires InStep(q, start, day, cursor) && cursor + q.Length() <= q.WindowOn(day).value.close
    ensures cursor < Midnight(day + 1)
    ensures Offerable(q, busy, start, end, cursor) <==>
      && q.Earliest(start) <= cursor && cursor + q.Length() <= q.Horizon(end)
      && Clear(busy, q.SlotAt(cursor).Padded(q.Pad()))
  {
    DayUnique(day, cursor);
  }

  lemma OnlyCursor(q: Query, busy: seq<Slot>, start: int, end: int, day: int, cursor: int)
    requires InStep(q, start, day, cursor)
    ensures forall t | cursor < t < Min(cursor + q.Step(), Midnight(day + 1)) :: !Offerable(q, busy, start, end, t)
  {
    forall t | cursor < t < Min(cursor + q.Step(), Midnight(day + 1))
      ensures !Offerable(q, busy, start, end, t)
    {
      DayUnique(day, t);
      if Offerable(q, busy, start, end, t) {
        ProgressionGap(FirstCursor(q, q.WindowOn(day).value, start), q.Step(), cursor, t);
      }
    }
  }
}
