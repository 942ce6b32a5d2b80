/** When the dialler may call (apps/api/parlio_api/outbound.py). */
module CallingWindow {
  import opened Wrappers
  import opened Clock

  /** `days` holds weekday numbers, Monday being 0; entries naming no weekday are possible and idle. */
  datatype CallingHours = CallingHours(start: TimeOfDay, end: TimeOfDay, days: set<int>) {
    predicate Open(day: int) {
      Weekday(day) in days
    }

    predicate InWindow(at: int) {
      Open(DayOf(at)) && start <= TimeOf(at) < end
    }

    function OpeningOn(day: int): int {
      Midnight(day) + start
    }

    /** Some weekday is allowed. */
    predicate HasDay() {
      exists d | 0 <= d < 7 :: d in days
    }

    /** In the window, or the very instant it opens. */
    predicate Callable(at: int) {
      InWindow(at) || (Open(DayOf(at)) && at == OpeningOn(DayOf(at)))
    }
  }

  /** The first opening not before `at` on days `offset`, `offset + 1`, .. `tries - 1` from today. */
  function Search(h: CallingHours, at: int, offset: nat, tries: nat): (r: Option<int>)
    decreases tries - offset
  {
    if offset >= tries then None
    else
      var day := DayOf(at) + offset;
      if h.Open(day) && h.OpeningOn(day) >= at then Some(h.OpeningOn(day))
      else Search(h, at, offset + 1, tries)
  }

  /** None stands for the exception raised when the search runs out of days. */
  function NextWindow(h: CallingHours, at: int): Option<int> {
    if h.InWindow(at) then Some(at) else Search(h, at, 0, 8)
  }

  method FindNextWindow(h: CallingHours, at: int) returns (r: Option<int>)
    ensures r == NextWindow(h, at)
  {
    if h.InWindow(at) {
      return Some(at);
    }
    for offset := 0 to 8
      invariant Search(h, at, 0, 8) == Search(h, at, offset, 8)
    {
      var day := DayOf(at) + offset;
      if !h.Open(day) {
        continue;
      }
      var start := h.OpeningOn(day);
      if start >= at {
        return Some(start);
      }
    }
    return None;
  }

  /** `k` days from today the window is still to open, seen from `at`. */
  predicate OpensLater(h: CallingHours, at: int, k: int) {
    h.Open(DayOf(at) + k) && h.OpeningOn(DayOf(at) + k) >= at
  }

  /** The search fails when no day tried qualifies. */
  lemma {:induction false} SearchFails(h: CallingHours, at: int, offset: nat, tries: nat)
    ensures Search(h, at, offset, tries).None? <==> forall k | offset <= k < tries :: !OpensLater(h, at, k)
    decreases tries - offset
  {
    if offset < tries {
      SearchFails(h, at, offset + 1, tries);
      assert OpensLater(h, at, offset) <==> h.Open(DayOf(at) + offset) && h.OpeningOn(DayOf(at) + offset) >= at;
    }
  }

  /** Otherwise it delivers the opening on the first day that does. */
  lemma {:induction false} SearchFinds(h: CallingHours, at: int, offset: nat, tries: nat) returns (k: int)
    requires Search(h, at, offset, tries).Some?
    ensures offset <= k < tries && OpensLater(h, at, k)
    ensures Search(h, at, offset, tries).value == h.OpeningOn(DayOf(at) + k)
    ensures forall j | offset <= j < k :: !OpensLater(h, at, j)
    decreases tries - offset
  {
    if OpensLater(h, at, offset) {
      k := offset;
    } else {
      k := SearchFinds(h, at, offset + 1, tries);
    }
  }

  /** Each later day opens after `at`, and seven consecutive days meet every weekday. */
  lemma LaterDays(h: CallingHours, at: int, k: int)
    requires 1 <= k
    ensures at < h.OpeningOn(DayOf(at) + k)
  {
  }

  lemma WeekMeets(today: int, d: int) returns (k: int)
    requires 0 <= d < 7
    ensures 1 <= k <= 7 && Weekday(today + k) == d && (k == 7 <==> Weekday(today) == d)
  {
    k := if d > Weekday(today) then d - Weekday(today) else d - Weekday(today) + 7;
  }

  /** Eight days always suffice, so the exception is raised exactly when no weekday is allowed. */
  lemma {:induction false} RaisesOnlyWithoutDays(h: CallingHours, at: int)
    ensures NextWindow(h, at).None? <==> !h.HasDay()
  {
    SearchFails(h, at, 0, 8);
    if h.HasDay() {
      var d :| 0 <= d < 7 && d in h.days;
      var k := WeekMeets(DayOf(at), d);
      LaterDays(h, at, k);
      assert OpensLater(h, at, k);
    } else {
      assert forall day :: 0 <= Weekday(day) < 7;
    }
  }

  /** Seven days would not: they fail when today is the only allowed day and has already opened. */
  lemma {:induction false} SevenDaysFail(h: CallingHours, at: int)
    requires h.HasDay()
    ensures Search(h, at, 0, 7).None? <==>
      h.OpeningOn(DayOf(at)) < at && forall d | 0 <= d < 7 && d in h.days :: d == Weekday(DayOf(at))
  {
    var today := DayOf(at);
    SearchFails(h, at, 0, 7);
    if d :| 0 <= d < 7 && d in h.days && d != Weekday(today) {
      var k := WeekMeets(today, d);
      LaterDays(h, at, k);
      assert OpensLater(h, at, k);
    } else {
      forall k | 1 <= k < 7
        ensures !OpensLater(h, at, k)
      {
        assert Weekday(today + k) != Weekday(today) && 0 <= Weekday(today + k) < 7;
      }
      assert OpensLater(h, at, 0) <==> h.OpeningOn(today) >= at;
    }
  }

  /** The next window is the least callable instant not before `at`. */
  lemma NextWindowIsLeast(h: CallingHours, at: int)
    requires h.HasDay()
    ensures NextWindow(h, at).Some?
    ensures at <= NextWindow(h, at).value && h.Callable(NextWindow(h, at).value)
    ensures forall u | at <= u < NextWindow(h, at).value :: !h.Callable(u)
  {
    RaisesOnlyWithoutDays(h, at);
    if !h.InWindow(at) {
      var k := SearchFinds(h, at, 0, 8);
      OpeningIsCallable(h, DayOf(at) + k);
      forall u | at <= u < h.OpeningOn(DayOf(at) + k)
        ensures !h.Callable(u)
      {
        NotCallableBefore(h, at, k, u);
      }
    }
  }

  lemma OpeningIsCallable(h: CallingHours, day: int)
    requires h.Open(day)
    ensures h.Callable(h.OpeningOn(day))
  {
  }

  lemma NotCallableBefore(h: CallingHours, at: int, k: int, u: int)
    requires !h.InWindow(at) && 0 <= k && at <= u < h.OpeningOn(DayOf(at) + k)
    requires forall j | 0 <= j < k :: !OpensLater(h, at, j)
    ensures !h.Callable(u)
  {
    var today, j := DayOf(at), DayOf(u) - DayOf(at);
    DayBounds(at);
    DayBounds(u);
    DayMonotone(at, u);
    if j < k {
      assert !OpensLater(h, at, j);
    }
    if j > 0 {
      LaterDays(h, at, j);
    }
  }

  /** Being in the window is what the search delivers exactly when the window is not empty. */
  lemma NextWindowIsInside(h: CallingHours, at: int)
    requires h.HasDay()
    ensures NextWindow(h, at).Some? && (h.InWindow(NextWindow(h, at).value) <==> h.start < h.end)
  {
    NextWindowIsLeast(h, at);
    var r := NextWindow(h, at).value;
    DayBounds(r);
  }

  lemma NextWindowIdempotent(h: CallingHours, at: int)
    requires h.HasDay()
    ensures NextWindow(h, at).Some? && NextWindow(h, NextWindow(h, at).value) == NextWindow(h, at)
  {
    NextWindowIsLeast(h, at);
    NextWindowIsLeast(h, NextWindow(h, at).value);
    assert h.Callable(NextWindow(h, at).value);
  }

  lemma NextWindowMonotone(h: CallingHours, a: int, b: int)
    requires h.HasDay() && a <= b
    ensures NextWindow(h, a).Some? && NextWindow(h, b).Some?
    ensures NextWindow(h, a).value <= NextWindow(h, b).value
  {
    NextWindowIsLeast(h, a);
    NextWindowIsLeast(h, b);
    assert h.Callable(NextWindow(h, b).value);
  }

  /** Calls may be made on an allowed weekday, from the window's start until before its end, and at its very start. */
  lemma CallableExactly(h: CallingHours, at: int)
    ensures h.InWindow(at) <==> (at / DAY) % 7 in h.days && h.start <= at % DAY < h.end
    ensures h.Callable(at) <==> (at / DAY) % 7 in h.days && (h.start <= at % DAY < h.end || at % DAY == h.start)
  {
  }
}
