/**
 From free slots to offers: agreement of the search with the two checks made at booking time, and
 the merged offer of a whole team (apps/api/parlio_api/calendar.py).
 */
module Availability {
  import opened Wrappers
  import opened Clock
  import opened Opening
  import opened Ordered
  import opened FreeSlots

  /** What a calendar answers when asked for the busy periods of a time range. */
  function Fetch(diary: seq<Slot>, range: Slot): (busy: seq<Slot>)
    ensures forall b :: b in busy <==> b in diary && b.Overlaps(range)
  {
    if diary == [] then []
    else (if diary[0].Overlaps(range) then [diary[0]] else []) + Fetch(diary[1..], range)
  }

  /** The diary check at booking time: fetch the padded range, then look for any overlap. */
  predicate Free(diary: seq<Slot>, slot: Slot, pad: int) {
    Clear(Fetch(diary, slot.Padded(pad)), slot.Padded(pad))
  }

  lemma FreeSeesWholeDiary(diary: seq<Slot>, slot: Slot, pad: int)
    ensures Free(diary, slot, pad) <==> Clear(diary, slot.Padded(pad))
  {
  }

  /** Every start the search offers passes the rules check, whatever the service or grid. */
  lemma OfferedIsAllowed(q: Query, busy: seq<Slot>, start: int, end: int, t: int)
    requires Offerable(q, busy, start, end, t)
    ensures SlotAllowed(q, t) == None
    ensures start <= t && t + q.Length() <= q.Horizon(end) && Clear(busy, q.SlotAt(t).Padded(q.Pad()))
  {
    if !q.AnyTime() && q.Grid() != 0 {
      var w := q.WindowOn(DayOf(t)).value;
      OnGrid(q.Grid(), DayOf(t), Max(w.open, q.Earliest(start)), t);
    }
  }

  /**
   On a grid the search and the rules check agree exactly: a start is offerable just when the check
   accepts it, it lies in the range asked about and the diary is clear around it.
   */
  lemma GriddedSearchIsTheCheck(q: Query, busy: seq<Slot>, start: int, end: int, t: int)
    requires !q.AnyTime() && q.rules.alignMinutes > 0
    ensures Offerable(q, busy, start, end, t) <==>
      && SlotAllowed(q, t) == None
      && start <= t && t + q.Length() <= q.Horizon(end)
      && Clear(busy, q.SlotAt(t).Padded(q.Pad()))
  {
    if Offerable(q, busy, start, end, t) {
      OfferedIsAllowed(q, busy, start, end, t);
    }
    if SlotAllowed(q, t) == None && start <= t {
      var w := q.WindowOn(DayOf(t)).value;
      OnGrid(q.Grid(), DayOf(t), Max(w.open, q.Earliest(start)), t);
    }
  }

  /** Being on the day's grid is being a whole number of steps after any instant rounded up to it. */
  lemma OnGrid(grid: int, day: int, from: int, t: int)
    requires 0 < grid && DayOf(t) == day && Midnight(day) <= from <= t
    ensures Align(t, grid) == t <==> Align(from, grid) <= t && (t - Align(from, grid)) % grid == 0
  {
    DayBounds(t);
    DayUnique(day, from);
    var m, first := Midnight(day), Align(from, grid);
    AlignLands(grid, from);
    AlignFixes(grid, t);
    if (t - m) % grid == 0 {
      if first > t {
        ProgressionGap(m, grid, t, first);
      }
      Congruent(m, grid, first, t);
    }
    if first <= t && (t - first) % grid == 0 {
      Transitive(m, grid, first, t);
    }
  }

  lemma AlignLands(grid: int, from: int)
    requires 0 < grid
    ensures (Align(from, grid) - Midnight(DayOf(from))) % grid == 0 && Align(from, grid) < from + grid
  {
    var m := Midnight(DayOf(from));
    var k, over := (from - m) / grid, (from - m) % grid;
    assert from - m == k * grid + over;
    MultipleMod(k, grid);
    MultipleMod(k + 1, grid);
    assert (k + 1) * grid == k * grid + grid;
  }

  lemma AlignFixes(grid: int, t: int)
    requires 0 < grid
    ensures Align(t, grid) == t <==> (t - Midnight(DayOf(t))) % grid == 0
  {
  }

  lemma Transitive(m: int, grid: int, a: int, b: int)
    requires 0 < grid && (a - m) % grid == 0 && (b - a) % grid == 0
    ensures (b - m) % grid == 0
  {
    var i, j := (b - a) / grid, (a - m) / grid;
    assert b - m == i * grid + j * grid == (i + j) * grid;
    MultipleMod(i + j, grid);
  }

  lemma Congruent(m: int, grid: int, a: int, b: int)
    requires 0 < grid && (a - m) % grid == 0 && (b - m) % grid == 0
    ensures (b - a) % grid == 0
  {
    var i, j := (a - m) / grid, (b - m) / grid;
    assert b - a == j * grid - i * grid == (j - i) * grid;
    MultipleMod(j - i, grid);
  }

  // -- the rules in the owner's own terms --------------------------------------------------------

  /** An emergency service, where these may ignore hours, grid and notice. */
  ghost predicate Urgent(q: Query) {
    q.rules.emergencyAnyTime && exists s | q.service == Some(s) :: s.emergency
  }

  /** The appointment asked for takes `n` minutes: the service's, else those asked for, else the usual ones. */
  ghost predicate Takes(q: Query, n: int) {
    match (q.service, q.duration)
    case (Some(s), _) => n == s.minutes
    case (None, Some(d)) => n == if d > 0 then d else q.rules.slotMinutes
    case (None, None) => n == q.rules.slotMinutes
  }

  /** `gap` minutes are kept free before and after the time from `t` to `until`. */
  ghost predicate GapKept(busy: seq<Slot>, t: int, until: int, gap: int) {
    forall b | b in busy :: b.end <= t - gap * MINUTE || until + gap * MINUTE <= b.start
  }

  /** Clear of the padded time is having the gap either side. */
  lemma ClearKeepsGap(busy: seq<Slot>, t: int, until: int, gap: int)
    ensures Clear(busy, Slot(t, until).Padded(gap * MINUTE)) <==> GapKept(busy, t, until, gap)
  {
  }

  /**
   An urgent appointment is offered at the start of the day, of the range or now, whichever is latest,
   and every quarter of an hour after that, to a minute before midnight, whatever the opening hours.
   */
  lemma UrgentOffer(q: Query, busy: seq<Slot>, start: int, end: int, t: int, n: int)
    requires Urgent(q) && Takes(q, n)
    ensures var m, until := Midnight(DayOf(t)), t + n * MINUTE;
      var first := Max(m, Max(start, q.now));
      Offerable(q, busy, start, end, t) <==>
        && first <= t && (t - first) % (15 * MINUTE) == 0
        && until <= m + 23 * HOUR + 59 * MINUTE
        && until <= end && until <= q.now + q.rules.maxDaysAhead * DAY
        && GapKept(busy, t, until, q.rules.bufferMinutes)
  {
    ClearKeepsGap(busy, t, t + n * MINUTE, q.rules.bufferMinutes);
  }

  /**
   Without a grid an ordinary appointment is offered as soon as the day has opened, the range has begun
   and notice has been given, and then at every multiple of the usual length.
   */
  lemma UngriddedOffer(q: Query, busy: seq<Slot>, start: int, end: int, t: int, n: int)
    requires !Urgent(q) && Takes(q, n) && q.rules.alignMinutes == 0
    ensures var hours, until := DayWindow(q.hours, DayOf(t)), t + n * MINUTE;
      Offerable(q, busy, start, end, t) <==>
        && hours.Some?
        && (var first := Max(hours.value.open, Max(start, q.now + q.rules.minNoticeMinutes * MINUTE));
            first <= t && (t - first) % (q.rules.slotMinutes * MINUTE) == 0)
        && until <= hours.value.close
        && until <= end && until <= q.now + q.rules.maxDaysAhead * DAY
        && GapKept(busy, t, until, q.rules.bufferMinutes)
  {
    ClearKeepsGap(busy, t, t + n * MINUTE, q.rules.bufferMinutes);
  }

  /** On a grid it is offered at every grid point of the day that leaves room for it. */
  lemma GriddedOffer(q: Query, busy: seq<Slot>, start: int, end: int, t: int, n: int)
    requires !Urgent(q) && Takes(q, n) && q.rules.alignMinutes > 0
    ensures var hours, until := DayWindow(q.hours, DayOf(t)), t + n * MINUTE;
      Offerable(q, busy, start, end, t) <==>
        && hours.Some? && hours.value.open <= t && until <= hours.value.close
        && (t - Midnight(DayOf(t))) % (q.rules.alignMinutes * MINUTE) == 0
        && start <= t && q.now + q.rules.minNoticeMinutes * MINUTE <= t
        && until <= end && until <= q.now + q.rules.maxDaysAhead * DAY
        && GapKept(busy, t, until, q.rules.bufferMinutes)
  {
    GriddedSearchIsTheCheck(q, busy, start, end, t);
    AlignFixes(q.rules.alignMinutes * MINUTE, t);
    ClearKeepsGap(busy, t, t + n * MINUTE, q.rules.bufferMinutes);
  }

  /** What the point check lets pass. */
  lemma AllowedExactly(q: Query, t: int, n: int)
    requires Takes(q, n)
    ensures var hours := DayWindow(q.hours, DayOf(t));
      SlotAllowed(q, t) == None <==>
        if Urgent(q) then q.now - 5 * MINUTE <= t
        else
          && q.now + q.rules.minNoticeMinutes * MINUTE <= t <= q.now + q.rules.maxDaysAhead * DAY
          && hours.Some? && hours.value.open <= t && t + n * MINUTE <= hours.value.close
          && (q.rules.alignMinutes > 0 ==> (t - Midnight(DayOf(t))) % (q.rules.alignMinutes * MINUTE) == 0)
  {
    if q.rules.alignMinutes > 0 {
      AlignFixes(q.rules.alignMinutes * MINUTE, t);
    }
  }

  /** The reason given for a refusal is a true one. */
  lemma RefusedForAReason(q: Query, t: int, n: int)
    requires Takes(q, n) && SlotAllowed(q, t).Some?
    ensures var hours := DayWindow(q.hours, DayOf(t));
      match SlotAllowed(q, t).value
      case TimePassed => Urgent(q) && t < q.now - 5 * MINUTE
      case NeedsNotice => !Urgent(q) && t < q.now + q.rules.minNoticeMinutes * MINUTE
      case TooFarAhead => !Urgent(q) && q.now + q.rules.maxDaysAhead * DAY < t
      case ClosedThatDay => !Urgent(q) && hours.None?
      case OutsideHours => !Urgent(q) && hours.Some? && (t < hours.value.open || hours.value.close < t + n * MINUTE)
      case OffGrid => !Urgent(q) && q.rules.alignMinutes > 0 && (t - Midnight(DayOf(t))) % (q.rules.alignMinutes * MINUTE) != 0
  {
    if q.rules.alignMinutes > 0 {
      AlignFixes(q.rules.alignMinutes * MINUTE, t);
    }
  }

  /**
   The offer asks the calendar about [start, end] only, while booking asks about the padded slot.
   A start that the rules offer is accepted by every diary that offers it just when its padding
   lies within the range asked about.
   */
  lemma OfferIsHonoured(q: Query, start: int, end: int, t: int)
    requires Offerable(q, [], start, end, t)
    ensures (forall diary: seq<Slot> |
               Offerable(q, Fetch(diary, Slot(start, end)), start, end, t) :: Free(diary, q.SlotAt(t), q.Pad()))
            <==> start <= t - q.Pad() && t + q.Length() + q.Pad() <= end
  {
    var padded := q.SlotAt(t).Padded(q.Pad());
    if start <= padded.start && padded.end <= end {
      forall diary: seq<Slot> | Offerable(q, Fetch(diary, Slot(start, end)), start, end, t)
        ensures Free(diary, q.SlotAt(t), q.Pad())
      {
        assert forall b | b in diary && padded.Overlaps(b) :: b.Overlaps(Slot(start, end));
      }
    } else {
      var unseen := if padded.start < start then Slot(padded.start, start) else Slot(end, padded.end);
      var diary := [unseen];
      assert Fetch(diary, Slot(start, end)) == [];
      assert unseen in Fetch(diary, padded);
      assert !Free(diary, q.SlotAt(t), q.Pad());
    }
  }

  /** Asking about the padded range instead, every offer is honoured. */
  lemma PaddedFetchIsHonoured(q: Query, diary: seq<Slot>, start: int, end: int, t: int)
    requires Offerable(q, Fetch(diary, Slot(start, end).Padded(q.Pad())), start, end, t)
    ensures SlotAllowed(q, t) == None && Free(diary, q.SlotAt(t), q.Pad())
  {
    OfferedIsAllowed(q, Fetch(diary, Slot(start, end).Padded(q.Pad())), start, end, t);
  }

  // -- the team ------------------------------------------------------------------------------

  const PER_MEMBER: nat := 60
  const PER_OFFER: nat := 20

  /** A team member's own hours and diary; `reachable` when a connected calendar backs it. */
  datatype Member = Member(hours: Option<Schedule>, diary: seq<Slot>, reachable: bool) {
    /** Rules always come from the tenant's own connection. */
    function Ask(q: Query): Query {
      if hours.Some? then q.(hours := hours.value) else q
    }

    ghost function Offers(q: Query, start: int, end: int): iset<int> {
      if reachable then OfferableStarts(Ask(q), Fetch(diary, Slot(start, end)), start, end) else iset{}
    }

    /** The member survives the checks made when the slot is booked. */
    predicate CanTake(q: Query, t: int) {
      reachable && SlotAllowed(Ask(q), t) == None && Free(diary, q.SlotAt(t), q.Pad())
    }
  }

  ghost function TeamStarts(pool: seq<Member>, q: Query, start: int, end: int): iset<int> {
    iset i, t | 0 <= i < |pool| && t in pool[i].Offers(q, start, end) :: t
  }

  /**
   The offer of a team: sixty starts per member, merged by start time, the first twenty kept.
   Cutting each member's list loses nothing: these are the first twenty starts of the whole team.
   */
  method OfferTeam(pool: seq<Member>, q: Query, start: int, end: int) returns (out: seq<Slot>)
    ensures forall s | s in out :: s == q.SlotAt(s.start)
    ensures FirstOf(Starts(out), 20, TeamStarts(pool, q, start, end))
  {
    var merged: map<int, Slot> := map[];
    ghost var lists: seq<seq<int>> := [];
    for i := 0 to |pool|
      invariant |lists| == i
      invariant forall k | 0 <= k < i :: FirstOf(lists[k], PER_MEMBER, pool[k].Offers(q, start, end))
      invariant forall t :: t in merged <==> exists k | 0 <= k < i :: t in lists[k]
      invariant forall t | t in merged :: merged[t] == q.SlotAt(t)
    {
      var slots := OfferMember(pool[i], q, start, end);
      merged := Merge(q, merged, slots);
      lists := lists + [Starts(slots)];
    }
    out := Earliest(q, merged);
    TeamListIsExact(pool, q, start, end, lists, merged.Keys, Starts(out));
  }

  /** The first twenty of the merged slots. */
  method Earliest(ghost q: Query, merged: map<int, Slot>) returns (out: seq<Slot>)
    requires forall t | t in merged :: merged[t] == q.SlotAt(t)
    ensures forall s | s in out :: s == q.SlotAt(s.start)
    ensures FirstOf(Starts(out), PER_OFFER, iset t | t in merged.Keys)
  {
    var keys := SortKeys(merged.Keys);
    KeepIsFirst(keys, PER_OFFER, iset t | t in merged.Keys);
    keys := if |keys| < PER_OFFER then keys else keys[..PER_OFFER];
    out := seq(|keys|, i requires 0 <= i < |keys| => assert keys[i] in keys; merged[keys[i]]);
    forall i | 0 <= i < |keys|
      ensures Starts(out)[i] == keys[i] && out[i] == q.SlotAt(keys[i])
    {
      assert keys[i] in keys;
    }
    assert Starts(out) == keys;
  }

  method OfferMember(m: Member, q: Query, start: int, end: int) returns (slots: seq<Slot>)
    ensures forall s | s in slots :: s == q.SlotAt(s.start)
    ensures FirstOf(Starts(slots), PER_MEMBER, m.Offers(q, start, end))
  {
    if !m.reachable {
      return [];
    }
    var busy := Fetch(m.diary, Slot(start, end));
    slots := FindFreeSlots(m.Ask(q), busy, start, end, PER_MEMBER);
  }

  /** The first member to offer a start keeps it. */
  method Merge(ghost q: Query, before: map<int, Slot>, slots: seq<Slot>) returns (merged: map<int, Slot>)
    requires forall t | t in before :: before[t] == q.SlotAt(t)
    requires forall s | s in slots :: s == q.SlotAt(s.start)
    ensures forall t :: t in merged <==> t in before || t in Starts(slots)
    ensures forall t | t in merged :: merged[t] == q.SlotAt(t)
  {
    merged := before;
    for j := 0 to |slots|
      invariant forall t :: t in merged <==> t in before || t in Starts(slots)[..j]
      invariant forall t | t in merged :: merged[t] == q.SlotAt(t)
    {
      assert slots[j] in slots && Starts(slots)[..j + 1] == Starts(slots)[..j] + [slots[j].start];
      if slots[j].start !in merged {
        merged := merged[slots[j].start := slots[j]];
      }
    }
    assert Starts(slots)[..|slots|] == Starts(slots);
  }

  lemma TeamListIsExact(pool: seq<Member>, q: Query, start: int, end: int, lists: seq<seq<int>>,
                        keySet: set<int>, keys: seq<int>)
    requires |lists| == |pool|
    requires forall k | 0 <= k < |pool| :: FirstOf(lists[k], PER_MEMBER, pool[k].Offers(q, start, end))
    requires forall t :: t in keySet <==> exists k | 0 <= k < |pool| :: t in lists[k]
    requires FirstOf(keys, PER_OFFER, iset t | t in keySet)
    ensures FirstOf(keys, PER_OFFER, TeamStarts(pool, q, start, end))
  {
    var sets := seq(|pool|, i requires 0 <= i < |pool| => pool[i].Offers(q, start, end));
    MergeLosesNothing(lists, sets, PER_MEMBER, PER_OFFER, (iset t | t in keySet), TeamStarts(pool, q, start, end), keys);
  }

  lemma KeepIsFirst(keys: seq<int>, keep: nat, S: iset<int>)
    requires Increasing(keys) && forall t :: t in keys <==> t in S
    ensures FirstOf(if |keys| < keep then keys else keys[..keep], keep, S)
  {
  }

  /** The keys of a dictionary in order. */
  method SortKeys(keys: set<int>) returns (r: seq<int>)
    ensures Increasing(r) && forall t :: t in r <==> t in keys
  {
    r := [];
    var rest := keys;
    while |rest| != 0
      invariant rest <= keys
      invariant Increasing(r) && (forall t :: t in r <==> t in keys - rest)
      invariant forall t, u | t in r && u in rest :: t < u
      decreases |rest|
    {
      LeastExists(rest);
      var least :| least in rest && forall t | t in rest :: least <= t;
      assert forall i | 0 <= i < |r| :: r[i] in r;
      r, rest := r + [least], rest - {least};
    }
  }

  lemma {:induction false} LeastExists(s: set<int>)
    requires |s| != 0
    ensures exists m :: m in s && forall t | t in s :: m <= t
  {
    var m := Least(s);
  }

  lemma {:induction false} Least(s: set<int>) returns (m: int)
    requires |s| != 0
    ensures m in s && forall t | t in s :: m <= t
    decreases |s|
  {
    var any := SomeMember(s);
    var rest := s - {any};
    if |rest| == 0 {
      assert forall t | t in s :: t == any || t in rest;
      return any;
    }
    var n := Least(rest);
    m := Min(any, n);
    forall t | t in s
      ensures m <= t
    {
      assert t == any || t in rest;
    }
  }

  /** A kept start whose padding lies in the range asked about leaves booking someone to choose. */
  lemma OfferedStartHasATaker(pool: seq<Member>, q: Query, start: int, end: int, t: int)
    requires t in TeamStarts(pool, q, start, end)
    requires start <= t - q.Pad() && t + q.Length() + q.Pad() <= end
    ensures exists i | 0 <= i < |pool| :: pool[i].CanTake(q, t)
  {
    var i :| 0 <= i < |pool| && t in pool[i].Offers(q, start, end);
    var m := pool[i];
    OfferedIsAllowed(m.Ask(q), Fetch(m.diary, Slot(start, end)), start, end, t);
    assert Offerable(m.Ask(q), [], start, end, t);
    OfferIsHonoured(m.Ask(q), start, end, t);
    assert m.CanTake(q, t);
  }

  /** What a calendar that holds `diary` shows of a range. */
  ghost predicate Shows(diary: seq<Slot>, start: int, end: int, busy: seq<Slot>) {
    forall b :: b in busy <==> b in diary && b.start < end && start < b.end
  }

  /** A team is offered whatever a member who can be reached is offered, on its own hours if it has any. */
  lemma TeamOffersExactly(pool: seq<Member>, q: Query, start: int, end: int, t: int)
    ensures t in TeamStarts(pool, q, start, end) <==>
      exists i, busy | 0 <= i < |pool| && pool[i].reachable && Shows(pool[i].diary, start, end, busy) ::
        Offerable(Query(q.rules, if pool[i].hours.Some? then pool[i].hours.value else q.hours, q.service, q.duration, q.now),
                  busy, start, end, t)
  {
    forall i | 0 <= i < |pool|
      ensures Shows(pool[i].diary, start, end, Fetch(pool[i].diary, Slot(start, end)))
    {
    }
    if i, busy :| 0 <= i < |pool| && pool[i].reachable && Shows(pool[i].diary, start, end, busy)
                  && Offerable(pool[i].Ask(q), busy, start, end, t) {
      assert forall b :: b in busy <==> b in Fetch(pool[i].diary, Slot(start, end));
      assert t in pool[i].Offers(q, start, end);
    }
  }

  /** An ordinary appointment is offered within the own hours of a member who can be reached, or the tenant's if there are none. */
  lemma OfferedInOwnHours(pool: seq<Member>, q: Query, start: int, end: int, t: int, n: int)
    requires t in TeamStarts(pool, q, start, end) && !Urgent(q) && Takes(q, n)
    ensures exists i | 0 <= i < |pool| ::
      && pool[i].reachable
      && (var hours := DayWindow(if pool[i].hours.Some? then pool[i].hours.value else q.hours, DayOf(t));
          hours.Some? && hours.value.open <= t && t + n * MINUTE <= hours.value.close)
  {
    var i :| 0 <= i < |pool| && t in pool[i].Offers(q, start, end);
    var m := pool[i];
    OfferedIsAllowed(m.Ask(q), Fetch(m.diary, Slot(start, end)), start, end, t);
    AllowedExactly(m.Ask(q), t, n);
    assert m.reachable;
  }
}
