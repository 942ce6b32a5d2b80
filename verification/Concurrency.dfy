/** Peak and overlapping calls, by sorting and sweeping (apps/api/parlio_api/insights.py). */
module Concurrency {
  import opened Wrappers

  /** An answered call occupies the instants from its start up to, not including, its end. */
  datatype CallFields = CallFields(start: int, end: int) {
    predicate RunningAt(t: int) {
      start <= t < end
    }
  }
  type Call = c: CallFields | c.start <= c.end witness CallFields(0, 0)

  /** A call beginning (+1) or ending (-1). */
  datatype Event = Event(at: int, delta: int)

  /** Sort order of events: by time, endings first. */
  predicate Before(a: Event, b: Event) {
    a.at < b.at || (a.at == b.at && a.delta <= b.delta)
  }

  predicate Sorted(events: seq<Event>) {
    forall i, j | 0 <= i < j < |events| :: Before(events[i], events[j])
  }

  // -- what is to be computed --------------------------------------------------------------------

  /** Calls running at an instant. */
  function Running(calls: seq<Call>, t: int): nat {
    if calls == [] then 0 else (if calls[0].RunningAt(t) then 1 else 0) + Running(calls[1..], t)
  }

  /** `peak` is the most calls ever running, first reached at `at`. */
  ghost predicate IsPeak(calls: seq<Call>, peak: nat, at: Option<int>) {
    && (forall t :: Running(calls, t) <= peak)
    && (if peak == 0 then at == None
        else at.Some? && Running(calls, at.value) == peak && forall t | t < at.value :: Running(calls, t) < peak)
  }

  /** Starts up to and including, and ends up to and including, an instant. */
  function StartedBy(calls: seq<Call>, t: int): nat {
    if calls == [] then 0 else (if calls[0].start <= t then 1 else 0) + StartedBy(calls[1..], t)
  }

  function EndedBy(calls: seq<Call>, t: int): nat {
    if calls == [] then 0 else (if calls[0].end <= t then 1 else 0) + EndedBy(calls[1..], t)
  }

  /** The calls of a day in order of their starts. */
  predicate InStartOrder(calls: seq<Call>) {
    forall i, j | 0 <= i < j < |calls| :: calls[i].start <= calls[j].start
  }

  /** The call at `k` begins while one earlier in the order is still running. */
  predicate BeginsDuringAnother(calls: seq<Call>, k: nat)
    requires k < |calls|
  {
    exists j | 0 <= j < k :: calls[j].RunningAt(calls[k].start)
  }

  function OverlapsUpTo(calls: seq<Call>, k: nat): nat
    requires k <= |calls|
  {
    if k == 0 then 0 else (if BeginsDuringAnother(calls, k - 1) then 1 else 0) + OverlapsUpTo(calls, k - 1)
  }

  /** What the sweep counts instead: starts that leave more than one call running by its own tally. */
  function TallyUpTo(calls: seq<Call>, k: nat): nat
    requires k <= |calls|
  {
    if k == 0 then 0
    else (if k - EndedBy(calls, calls[k - 1].start) > 1 then 1 else 0) + TallyUpTo(calls, k - 1)
  }

  // -- events ----------------------------------------------------------------------------------

  function EventsOf(calls: seq<Call>): seq<Event> {
    if calls == [] then [] else [Event(calls[0].start, 1), Event(calls[0].end, -1)] + EventsOf(calls[1..])
  }

  function Insert(e: Event, events: seq<Event>): seq<Event> {
    if events == [] || Before(e, events[0]) then [e] + events else [events[0]] + Insert(e, events[1..])
  }

  function Sort(events: seq<Event>): seq<Event> {
    if events == [] then [] else Insert(events[0], Sort(events[1..]))
  }

  lemma {:induction false} InsertAdds(e: Event, events: seq<Event>)
    ensures multiset(Insert(e, events)) == multiset(events) + multiset{e}
    ensures forall x :: x in Insert(e, events) <==> x == e || x in events
  {
    if events != [] && !Before(e, events[0]) {
      assert events == [events[0]] + events[1..];
      InsertAdds(e, events[1..]);
    }
  }

  lemma {:induction false} SortPermutes(events: seq<Event>)
    ensures multiset(Sort(events)) == multiset(events)
    ensures forall x :: x in Sort(events) <==> x in events
  {
    if events != [] {
      assert events == [events[0]] + events[1..];
      SortPermutes(events[1..]);
      InsertAdds(events[0], Sort(events[1..]));
    }
  }

  lemma {:induction false} InsertSorted(e: Event, events: seq<Event>)
    requires Sorted(events)
    ensures Sorted(Insert(e, events))
  {
    if events != [] && !Before(e, events[0]) {
      InsertSorted(e, events[1..]);
      InsertAdds(e, events[1..]);
      var rest := Insert(e, events[1..]);
      forall x | x in rest
        ensures Before(events[0], x)
      {
        assert x == e || x in events[1..];
      }
      Prepended(events[0], rest);
    } else {
      Prepended(e, events);
    }
  }

  lemma {:induction false} Prepended(e: Event, events: seq<Event>)
    requires Sorted(events) && (events == [] || Before(e, events[0]) || forall x | x in events :: Before(e, x))
    ensures Sorted([e] + events)
  {
  }

  lemma {:induction false} SortSorted(events: seq<Event>)
    ensures Sorted(Sort(events))
  {
    if events != [] {
      SortSorted(events[1..]);
      InsertSorted(events[0], Sort(events[1..]));
    }
  }

  /** Events of one kind, in all and up to an instant. */
  function Number(events: seq<Event>, delta: int): nat {
    if events == [] then 0 else (if events[0].delta == delta then 1 else 0) + Number(events[1..], delta)
  }

  function NumberBy(events: seq<Event>, delta: int, t: int): nat {
    if events == [] then 0
    else (if events[0].delta == delta && events[0].at <= t then 1 else 0) + NumberBy(events[1..], delta, t)
  }

  function Sum(events: seq<Event>): int {
    if events == [] then 0 else events[0].delta + Sum(events[1..])
  }

  ghost predicate UnitSteps(events: seq<Event>) {
    forall e | e in events :: e.delta == 1 || e.delta == -1
  }

  lemma {:induction false} InsertNumberBy(e: Event, events: seq<Event>, delta: int, t: int)
    ensures NumberBy(Insert(e, events), delta, t) == NumberBy([e] + events, delta, t)
  {
    assert ([e] + events)[1..] == events;
    if events != [] && !Before(e, events[0]) {
      InsertNumberBy(e, events[1..], delta, t);
      assert ([e] + events[1..])[1..] == events[1..];
      assert ([events[0]] + Insert(e, events[1..]))[1..] == Insert(e, events[1..]);
    }
  }

  lemma {:induction false} SortNumberBy(events: seq<Event>, delta: int, t: int)
    ensures NumberBy(Sort(events), delta, t) == NumberBy(events, delta, t)
  {
    if events != [] {
      SortNumberBy(events[1..], delta, t);
      InsertNumberBy(events[0], Sort(events[1..]), delta, t);
      assert ([events[0]] + Sort(events[1..]))[1..] == Sort(events[1..]);
    }
  }

  lemma {:induction false} EventsCountCalls(calls: seq<Call>, t: int)
    ensures NumberBy(EventsOf(calls), 1, t) == StartedBy(calls, t)
    ensures NumberBy(EventsOf(calls), -1, t) == EndedBy(calls, t)
    ensures UnitSteps(EventsOf(calls)) && Number(EventsOf(calls), 1) == |calls|
    ensures Running(calls, t) == StartedBy(calls, t) - EndedBy(calls, t)
  {
    if calls != [] {
      EventsCountCalls(calls[1..], t);
      var two := [Event(calls[0].start, 1), Event(calls[0].end, -1)];
      assert EventsOf(calls)[1..] == [two[1]] + EventsOf(calls[1..]);
      assert EventsOf(calls)[1..][1..] == EventsOf(calls[1..]);
    }
  }

  lemma {:induction false} SumIsDifference(events: seq<Event>)
    requires UnitSteps(events)
    ensures Sum(events) == Number(events, 1) - Number(events, -1)
  {
    if events != [] {
      SumIsDifference(events[1..]);
    }
  }

  lemma {:induction false} SumSnoc(events: seq<Event>, e: Event)
    ensures Sum(events + [e]) == Sum(events) + e.delta
    ensures Number(events + [e], 1) == Number(events, 1) + (if e.delta == 1 then 1 else 0)
  {
    if events == [] {
      assert events + [e] == [e] && [e][1..] == [];
    } else {
      SumSnoc(events[1..], e);
      assert (events + [e])[1..] == events[1..] + [e];
    }
  }

  /** When the first `k` events hold just those of a kind up to `t`, counting them is counting to `t`. */
  lemma {:induction false} PrefixCounts(events: seq<Event>, delta: int, t: int, k: nat)
    requires k <= |events|
    requires forall i | 0 <= i < k && events[i].delta == delta :: events[i].at <= t
    ensures Number(events[..k], delta) <= NumberBy(events, delta, t)
    ensures (forall i | k <= i < |events| && events[i].delta == delta :: t < events[i].at) ==>
              Number(events[..k], delta) == NumberBy(events, delta, t)
    decreases |events|
  {
    if events != [] {
      if k == 0 {
        PrefixCounts(events[1..], delta, t, 0);
        assert events[..0] == [] && events[1..][..0] == [];
      } else {
        PrefixCounts(events[1..], delta, t, k - 1);
        assert events[..k][1..] == events[1..][..k - 1];
      }
    }
  }

  /** The sorted events of a list of calls. */
  ghost predicate Timetable(calls: seq<Call>, events: seq<Event>) {
    events == Sort(EventsOf(calls))
  }

  lemma {:induction false} TimetableFacts(calls: seq<Call>, events: seq<Event>, t: int)
    requires Timetable(calls, events)
    ensures Sorted(events) && UnitSteps(events)
    ensures NumberBy(events, 1, t) == StartedBy(calls, t) && NumberBy(events, -1, t) == EndedBy(calls, t)
    ensures Running(calls, t) == StartedBy(calls, t) - EndedBy(calls, t)
  {
    EventsCountCalls(calls, t);
    SortSorted(EventsOf(calls));
    SortNumberBy(EventsOf(calls), 1, t);
    SortNumberBy(EventsOf(calls), -1, t);
    SortPermutes(EventsOf(calls));
  }

  lemma {:induction false} PrefixIsDifference(calls: seq<Call>, events: seq<Event>, k: nat)
    requires Timetable(calls, events) && k <= |events|
    ensures Sum(events[..k]) == Number(events[..k], 1) - Number(events[..k], -1)
  {
    TimetableFacts(calls, events, 0);
    assert forall e | e in events[..k] :: e in events;
    SumIsDifference(events[..k]);
  }

  /** Right after the events up to `t`, the tally is the number of calls running at `t`. */
  lemma {:induction false} TallyAtCut(calls: seq<Call>, events: seq<Event>, t: int, k: nat)
    requires Timetable(calls, events) && k <= |events|
    requires (forall i | 0 <= i < k :: events[i].at <= t) && (forall i | k <= i < |events| :: t < events[i].at)
    ensures Sum(events[..k]) == Running(calls, t)
  {
    TimetableFacts(calls, events, t);
    PrefixCounts(events, 1, t, k);
    PrefixCounts(events, -1, t, k);
    PrefixIsDifference(calls, events, k);
  }

  /** Every instant has its cut. */
  lemma {:induction false} CutAt(events: seq<Event>, t: int) returns (k: nat)
    requires Sorted(events)
    ensures k <= |events|
    ensures (forall i | 0 <= i < k :: events[i].at <= t) && (forall i | k <= i < |events| :: t < events[i].at)
  {
    k := 0;
    while k < |events| && events[k].at <= t
      invariant k <= |events| && forall i | 0 <= i < k :: events[i].at <= t
    {
      k := k + 1;
    }
  }

  /** Right after a start: starts so far less all endings up to then, at most the calls then running. */
  lemma {:induction false} TallyAtStart(calls: seq<Call>, events: seq<Event>, k: nat)
    requires Timetable(calls, events) && k < |events| && events[k].delta == 1
    ensures Sum(events[..k + 1]) == Number(events[..k + 1], 1) - EndedBy(calls, events[k].at)
    ensures Sum(events[..k + 1]) <= Running(calls, events[k].at)
  {
    var t := events[k].at;
    TimetableFacts(calls, events, t);
    PrefixCounts(events, -1, t, k + 1);
    PrefixCounts(events, 1, t, k + 1);
    PrefixIsDifference(calls, events, k + 1);
  }

  // -- calls in order of their starts -----------------------------------------------------------

  function InsertCall(c: Call, calls: seq<Call>): (r: seq<Call>)
    ensures |r| == |calls| + 1
  {
    if calls == [] || c.start <= calls[0].start then [c] + calls else [calls[0]] + InsertCall(c, calls[1..])
  }

  /** The same calls in the order they began. */
  function ByStart(calls: seq<Call>): (r: seq<Call>)
    ensures |r| == |calls|
  {
    if calls == [] then [] else InsertCall(calls[0], ByStart(calls[1..]))
  }

  lemma {:induction false} InsertCallAdds(c: Call, calls: seq<Call>)
    ensures multiset(InsertCall(c, calls)) == multiset(calls) + multiset{c}
    ensures forall x :: x in InsertCall(c, calls) <==> x == c || x in calls
  {
    if calls != [] && !(c.start <= calls[0].start) {
      assert calls == [calls[0]] + calls[1..];
      InsertCallAdds(c, calls[1..]);
    }
  }

  lemma {:induction false} ByStartPermutes(calls: seq<Call>)
    ensures multiset(ByStart(calls)) == multiset(calls)
  {
    if calls != [] {
      assert calls == [calls[0]] + calls[1..];
      ByStartPermutes(calls[1..]);
      InsertCallAdds(calls[0], ByStart(calls[1..]));
    }
  }

  lemma {:induction false} InsertCallOrdered(c: Call, calls: seq<Call>)
    requires InStartOrder(calls)
    ensures InStartOrder(InsertCall(c, calls))
  {
    if calls != [] && !(c.start <= calls[0].start) {
      InsertCallOrdered(c, calls[1..]);
      InsertCallAdds(c, calls[1..]);
      var rest := InsertCall(c, calls[1..]);
      forall i | 0 <= i < |rest|
        ensures calls[0].start <= rest[i].start
      {
        assert rest[i] in rest;
        assert rest[i] == c || rest[i] in calls[1..];
      }
    }
  }

  lemma {:induction false} ByStartOrdered(calls: seq<Call>)
    ensures InStartOrder(ByStart(calls))
    ensures multiset(ByStart(calls)) == multiset(calls)
  {
    ByStartPermutes(calls);
    if calls != [] {
      ByStartOrdered(calls[1..]);
      InsertCallOrdered(calls[0], ByStart(calls[1..]));
    }
  }

  lemma {:induction false} InsertCallCounts(c: Call, calls: seq<Call>, t: int)
    ensures StartedBy(InsertCall(c, calls), t) == StartedBy(calls, t) + (if c.start <= t then 1 else 0)
    ensures EndedBy(InsertCall(c, calls), t) == EndedBy(calls, t) + (if c.end <= t then 1 else 0)
  {
    if calls != [] && !(c.start <= calls[0].start) {
      InsertCallCounts(c, calls[1..], t);
      assert ([calls[0]] + InsertCall(c, calls[1..]))[1..] == InsertCall(c, calls[1..]);
    } else {
      assert ([c] + calls)[1..] == calls;
    }
  }

  lemma {:induction false} ByStartCounts(calls: seq<Call>, t: int)
    ensures StartedBy(ByStart(calls), t) == StartedBy(calls, t) && EndedBy(ByStart(calls), t) == EndedBy(calls, t)
  {
    if calls != [] {
      ByStartCounts(calls[1..], t);
      InsertCallCounts(calls[0], ByStart(calls[1..]), t);
    }
  }

  lemma {:induction false} StartedByAtMost(calls: seq<Call>, t: int)
    ensures StartedBy(calls, t) <= |calls|
  {
    if calls != [] {
      StartedByAtMost(calls[1..], t);
    }
  }

  /** In start order, the j-th call has begun by `t` just when j calls have. */
  lemma {:induction false} NthStart(calls: seq<Call>, j: nat, t: int)
    requires InStartOrder(calls) && 1 <= j <= |calls|
    ensures calls[j - 1].start <= t <==> j <= StartedBy(calls, t)
  {
    if j == 1 {
      if calls[0].start > t {
        NoneStarted(calls, t);
      }
    } else {
      NthStart(calls[1..], j - 1, t);
      if calls[0].start > t {
        NoneStarted(calls, t);
        assert calls[j - 1].start >= calls[0].start;
      }
    }
  }

  lemma {:induction false} NoneStarted(calls: seq<Call>, t: int)
    requires forall i | 0 <= i < |calls| :: t < calls[i].start
    ensures StartedBy(calls, t) == 0
  {
    if calls != [] {
      NoneStarted(calls[1..], t);
    }
  }

  /** The j-th start among the events is the start of the j-th call. */
  lemma {:induction false} StartsMatch(calls: seq<Call>, events: seq<Event>, k: nat)
    requires Timetable(calls, events) && k < |events| && events[k].delta == 1
    ensures 1 <= Number(events[..k + 1], 1) <= |calls|
    ensures ByStart(calls)[Number(events[..k + 1], 1) - 1].start == events[k].at
  {
    var j := Number(events[..k + 1], 1);
    assert events[..k + 1] == events[..k] + [events[k]];
    SumSnoc(events[..k], events[k]);
    var s := events[k].at;
    BegunByThen(calls, events, k, s);
    StartedByAtMost(calls, s);
    var first := ByStart(calls)[j - 1].start;
    BegunByThen(calls, events, k, first);
    ByStartOrdered(calls);
    NthStart(ByStart(calls), j, first);
    NthStart(ByStart(calls), j, s);
    ByStartCounts(calls, first);
    ByStartCounts(calls, s);
  }

  lemma {:induction false} BegunByThen(calls: seq<Call>, events: seq<Event>, k: nat, t: int)
    requires Timetable(calls, events) && k < |events| && events[k].delta == 1
    ensures events[k].at <= t <==> Number(events[..k + 1], 1) <= StartedBy(calls, t)
  {
    TimetableFacts(calls, events, t);
    if events[k].at <= t {
      PrefixCounts(events, 1, t, k + 1);
    } else {
      NotBegun(events, k, t);
    }
  }

  lemma {:induction false} NotBegun(events: seq<Event>, k: nat, t: int)
    requires Sorted(events) && k < |events| && events[k].delta == 1 && t < events[k].at
    ensures NumberBy(events, 1, t) < Number(events[..k + 1], 1)
  {
    var m := CutAt(events, t);
    PrefixCounts(events, 1, t, m);
    NumberMonotone(events, 1, m, k);
    assert events[..k + 1] == events[..k] + [events[k]];
    SumSnoc(events[..k], events[k]);
  }

  lemma {:induction false} NumberMonotone(events: seq<Event>, delta: int, m: nat, k: nat)
    requires m <= k <= |events|
    ensures Number(events[..m], delta) <= Number(events[..k], delta)
    decreases |events|
  {
    if m > 0 {
      NumberMonotone(events[1..], delta, m - 1, k - 1);
      assert events[..m][1..] == events[1..][..m - 1] && events[..k][1..] == events[1..][..k - 1];
    } else {
      assert events[..0] == [];
    }
  }

  // -- the sweep -------------------------------------------------------------------------------

  /** The peak so far is the greatest tally so far, first reached just after a start. */
  ghost predicate PeakSoFar(events: seq<Event>, i: nat, peak: nat, at: Option<int>)
    requires i <= |events|
  {
    && (forall k | 0 <= k <= i :: Sum(events[..k]) <= peak)
    && (if peak == 0 then at == None
        else exists k | 0 <= k < i :: FirstReached(events, k, peak) && at == Some(events[k].at))
  }

  ghost predicate FirstReached(events: seq<Event>, k: nat, peak: nat)
    requires k < |events|
  {
    events[k].delta == 1 && Sum(events[..k + 1]) == peak && forall j | 0 <= j <= k :: Sum(events[..j]) < peak
  }

  lemma {:induction false} PeakIsPeak(calls: seq<Call>, events: seq<Event>, peak: nat, at: Option<int>)
    requires Timetable(calls, events) && PeakSoFar(events, |events|, peak, at)
    ensures IsPeak(calls, peak, at)
  {
    TimetableFacts(calls, events, 0);
    forall t
      ensures Running(calls, t) <= peak
    {
      var k := CutAt(events, t);
      TallyAtCut(calls, events, t, k);
    }
    if peak != 0 {
      var k :| 0 <= k < |events| && FirstReached(events, k, peak) && at == Some(events[k].at);
      TallyAtStart(calls, events, k);
      forall t | t < at.value
        ensures Running(calls, t) < peak
      {
        var m := CutAt(events, t);
        TallyAtCut(calls, events, t, m);
        assert m <= k;
      }
    }
  }

  /**
   The sweep over the sorted events.  Its peak is the most calls ever running at an instant, with
   the earliest such instant; its overlap count is the tally of starts described above.
   */
  method Sweep(calls: seq<Call>) returns (peak: nat, at: Option<int>, overlapping: nat)
    ensures IsPeak(calls, peak, at)
    ensures overlapping == TallyUpTo(ByStart(calls), |calls|)
  {
    var events := Sort(EventsOf(calls));
    peak, at, overlapping := SweepEvents(calls, events);
    AllStarts(calls, events);
    PeakIsPeak(calls, events, peak, at);
  }

  method SweepEvents(ghost calls: seq<Call>, events: seq<Event>) returns (peak: nat, at: Option<int>, overlapping: nat)
    requires Timetable(calls, events)
    ensures PeakSoFar(events, |events|, peak, at)
    ensures Number(events, 1) <= |calls| && overlapping == TallyUpTo(ByStart(calls), Number(events, 1))
  {
    var live := 0;
    peak, at, overlapping := 0, None, 0;
    for i := 0 to |events|
      invariant live == Sum(events[..i])
      invariant PeakSoFar(events, i, peak, at)
      invariant CountSoFar(calls, events, i, overlapping)
    {
      var e := events[i];
      SweepStep(calls, events, i, peak, at, overlapping);
      live := live + e.delta;
      if e.delta > 0 && live > 1 {
        overlapping := overlapping + 1;
      }
      if live > peak {
        peak, at := live, Some(e.at);
      }
    }
    assert events[..|events|] == events;
  }

  ghost predicate CountSoFar(calls: seq<Call>, events: seq<Event>, i: nat, overlapping: nat)
    requires i <= |events|
  {
    Number(events[..i], 1) <= |calls| && overlapping == TallyUpTo(ByStart(calls), Number(events[..i], 1))
  }

  /** One turn of the sweep. */
  lemma {:induction false} SweepStep(calls: seq<Call>, events: seq<Event>, i: nat, peak: nat, at: Option<int>, overlapping: nat)
    requires Timetable(calls, events) && i < |events|
    requires PeakSoFar(events, i, peak, at) && CountSoFar(calls, events, i, overlapping)
    ensures Sum(events[..i + 1]) == Sum(events[..i]) + events[i].delta
    ensures var live := Sum(events[..i + 1]);
      && (if live > peak then PeakSoFar(events, i + 1, live, Some(events[i].at)) else PeakSoFar(events, i + 1, peak, at))
      && CountSoFar(calls, events, i + 1, if events[i].delta > 0 && live > 1 then overlapping + 1 else overlapping)
  {
    var e, live := events[i], Sum(events[..i + 1]);
    TimetableFacts(calls, events, 0);
    assert e in events && events[..i + 1] == events[..i] + [e];
    SumSnoc(events[..i], e);
    PeakStep(events, i, peak, at);
    CountStep(calls, events, i, overlapping);
  }

  /** A start is counted when somebody is still on the line. */
  lemma {:induction false} CountStep(calls: seq<Call>, events: seq<Event>, i: nat, overlapping: nat)
    requires Timetable(calls, events) && i < |events| && CountSoFar(calls, events, i, overlapping)
    ensures CountSoFar(calls, events, i + 1,
              if events[i].delta > 0 && Sum(events[..i + 1]) > 1 then overlapping + 1 else overlapping)
  {
    var e := events[i];
    TimetableFacts(calls, events, 0);
    assert e in events && events[..i + 1] == events[..i] + [e];
    SumSnoc(events[..i], e);
    if e.delta > 0 {
      TallyAtStart(calls, events, i);
      StartsMatch(calls, events, i);
      ByStartCounts(calls, e.at);
    }
  }

  lemma {:induction false} PeakStep(events: seq<Event>, i: nat, peak: nat, at: Option<int>)
    requires i < |events| && UnitSteps(events) && PeakSoFar(events, i, peak, at)
    requires Sum(events[..i + 1]) == Sum(events[..i]) + events[i].delta
    ensures var live := Sum(events[..i + 1]);
      if live > peak then PeakSoFar(events, i + 1, live, Some(events[i].at)) else PeakSoFar(events, i + 1, peak, at)
  {
  }

  lemma {:induction false} AllStarts(calls: seq<Call>, events: seq<Event>)
    requires Timetable(calls, events)
    ensures Number(events, 1) == |calls|
  {
    EventsCountCalls(calls, 0);
    SortNumber(EventsOf(calls));
  }

  lemma {:induction false} SortNumber(events: seq<Event>)
    ensures Number(Sort(events), 1) == Number(events, 1)
  {
    if events != [] {
      SortNumber(events[1..]);
      InsertNumber(events[0], Sort(events[1..]));
    }
  }

  lemma {:induction false} InsertNumber(e: Event, events: seq<Event>)
    ensures Number(Insert(e, events), 1) == Number(events, 1) + (if e.delta == 1 then 1 else 0)
  {
    if events != [] && !Before(e, events[0]) {
      InsertNumber(e, events[1..]);
      assert ([events[0]] + Insert(e, events[1..]))[1..] == Insert(e, events[1..]);
    } else {
      assert ([e] + events)[1..] == events;
    }
  }

  // -- when the overlap count means what it says -----------------------------------------------

  /** Calls of no length at an instant. */
  function Momentary(calls: seq<Call>, t: int): nat {
    if calls == [] then 0
    else (if calls[0].start == t && calls[0].end == t then 1 else 0) + Momentary(calls[1..], t)
  }

  /** The call at `k` begins during others, but as many calls of no length, itself or later, hide them. */
  predicate Hidden(calls: seq<Call>, k: nat)
    requires k < |calls|
  {
    var s := calls[k].start;
    0 < Running(calls[..k], s) <= Momentary(calls[k..], s)
  }

  /** The count never exceeds the overlaps, and is exact just when no overlap is hidden. */
  lemma {:induction false} OverlapsCounted(calls: seq<Call>, k: nat)
    requires InStartOrder(calls) && k <= |calls|
    ensures TallyUpTo(calls, k) <= OverlapsUpTo(calls, k)
    ensures TallyUpTo(calls, k) == OverlapsUpTo(calls, k) <==> forall i | 0 <= i < k :: !Hidden(calls, i)
  {
    if k > 0 {
      OverlapsCounted(calls, k - 1);
      CountedAt(calls, k - 1);
      assert (forall i | 0 <= i < k :: !Hidden(calls, i)) <==>
        (forall i | 0 <= i < k - 1 :: !Hidden(calls, i)) && !Hidden(calls, k - 1);
    }
  }

  /** One call: it is counted when more earlier calls are running than calls of no length hide. */
  lemma {:induction false} CountedAt(calls: seq<Call>, k: nat)
    requires InStartOrder(calls) && k < |calls|
    ensures var s := calls[k].start;
      && (BeginsDuringAnother(calls, k) <==> 0 < Running(calls[..k], s))
      && (k + 1 - EndedBy(calls, s) > 1 <==> Running(calls[..k], s) > Momentary(calls[k..], s))
  {
    var s, earlier := calls[k].start, calls[..k];
    EndedSplit(calls, k, s);
    EndedAtOnce(calls[k..], s);
    StillRunning(earlier, s);
    assert BeginsDuringAnother(calls, k) <==> exists j | 0 <= j < |earlier| :: earlier[j].RunningAt(s);
  }

  /** So when every call lasts some time, exactly those that begin during an earlier one are counted. */
  lemma PositiveLengthsAreCounted(calls: seq<Call>)
    requires InStartOrder(calls) && forall i | 0 <= i < |calls| :: calls[i].start < calls[i].end
    ensures TallyUpTo(calls, |calls|) == OverlapsUpTo(calls, |calls|)
  {
    forall i | 0 <= i < |calls|
      ensures !Hidden(calls, i)
    {
      NoneMomentary(calls[i..], calls[i].start);
    }
    OverlapsCounted(calls, |calls|);
  }

  lemma {:induction false} NoneMomentary(calls: seq<Call>, t: int)
    requires forall i | 0 <= i < |calls| :: calls[i].start < calls[i].end
    ensures Momentary(calls, t) == 0
  {
    if calls != [] {
      NoneMomentary(calls[1..], t);
    }
  }

  lemma {:induction false} EndedAtOnce(calls: seq<Call>, t: int)
    requires forall i | 0 <= i < |calls| :: t <= calls[i].start
    ensures EndedBy(calls, t) == Momentary(calls, t)
  {
    if calls != [] {
      EndedAtOnce(calls[1..], t);
    }
  }

  lemma {:induction false} EndedSplit(calls: seq<Call>, k: nat, t: int)
    requires k <= |calls|
    ensures EndedBy(calls, t) == EndedBy(calls[..k], t) + EndedBy(calls[k..], t)
    decreases |calls|
  {
    if k == 0 {
      assert calls[..0] == [] && calls[0..] == calls;
    } else {
      EndedSplit(calls[1..], k - 1, t);
      assert calls[..k][1..] == calls[1..][..k - 1] && calls[1..][k - 1..] == calls[k..];
    }
  }

  lemma {:induction false} StillRunning(calls: seq<Call>, t: int)
    requires forall i | 0 <= i < |calls| :: calls[i].start <= t
    ensures EndedBy(calls, t) + Running(calls, t) == |calls|
    ensures 0 < Running(calls, t) <==> exists j | 0 <= j < |calls| :: calls[j].RunningAt(t)
  {
    if calls != [] {
      StillRunning(calls[1..], t);
      if j :| 0 <= j < |calls| && calls[j].RunningAt(t) {
        assert j > 0 ==> calls[1..][j - 1].RunningAt(t);
      }
      if j :| 0 <= j < |calls[1..]| && calls[1..][j].RunningAt(t) {
        assert calls[j + 1].RunningAt(t);
      }
      assert calls[0].RunningAt(t) <==> t < calls[0].end;
    }
  }

  /** A call that lasts no time takes itself off the tally: it goes uncounted in the middle of another. */
  lemma {:induction false} ZeroLengthCallIsMissed(from: int, at: int, to: int)
    requires from < at < to
    ensures var calls: seq<Call> := [CallFields(from, to), CallFields(at, at)];
      InStartOrder(calls) && OverlapsUpTo(calls, 2) == 1 && TallyUpTo(calls, 2) == 0
  {
    var long: Call, short: Call := CallFields(from, to), CallFields(at, at);
    var calls := [long, short];
    assert calls[1..] == [short] && calls[1..][1..] == [];
    assert calls[0].RunningAt(calls[1].start);
    assert [short][1..] == [] && EndedBy([], at) == 0 && EndedBy([], from) == 0;
    assert EndedBy([short], at) == 1 && EndedBy([short], from) == 0;
    assert OverlapsUpTo(calls, 0) == 0 && TallyUpTo(calls, 0) == 0;
    assert OverlapsUpTo(calls, 1) == 0;
    assert TallyUpTo(calls, 1) == 0;
  }
}
