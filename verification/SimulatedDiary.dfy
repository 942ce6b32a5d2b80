/**
 The in-memory calendar provider, and when the references it hands out identify an entry
 (apps/api/parlio_api/calendar.py).
 */
module SimulatedDiary {
  import opened FreeSlots

  datatype Entry = Entry(booking: string, ref: int, slot: Slot)

  datatype Sim = Sim(events: seq<Entry>, diaries: map<string, seq<Slot>>) {
    function Diary(cal: string): seq<Slot> {
      if cal in diaries then diaries[cal] else []
    }

    /** Same entries held and the same periods busy, whatever the order. */
    ghost predicate Same(other: Sim) {
      && multiset(events) == multiset(other.events)
      && forall cal :: multiset(Diary(cal)) == multiset(other.Diary(cal))
    }

    predicate Held(ref: int) {
      exists i | 0 <= i < |events| :: events[i].ref == ref
    }
  }

  /** References count the entries held at the time. */
  function NextRef(s: Sim): int {
    |s.events| + 1
  }

  function Created(s: Sim, cal: string, booking: string, slot: Slot): Sim {
    Sim(s.events + [Entry(booking, NextRef(s), slot)], s.diaries[cal := s.Diary(cal) + [slot]])
  }

  /** Position of the first entry with a reference, or the length if there is none. */
  function Find(events: seq<Entry>, ref: int): (k: nat)
    ensures k <= |events| && (k < |events| ==> events[k].ref == ref)
    ensures forall i | 0 <= i < k :: events[i].ref != ref
  {
    if events == [] || events[0].ref == ref then 0 else 1 + Find(events[1..], ref)
  }

  /** Takes the first equal period off a list, if there is one. */
  function Without(slots: seq<Slot>, slot: Slot): (r: seq<Slot>)
    ensures multiset(r) == multiset(slots) - multiset{slot}
  {
    if slots == [] then []
    else if slots[0] == slot then
      assert slots == [slots[0]] + slots[1..];
      slots[1..]
    else
      assert slots == [slots[0]] + slots[1..];
      [slots[0]] + Without(slots[1..], slot)
  }

  function Deleted(s: Sim, cal: string, ref: int): Sim {
    var k := Find(s.events, ref);
    if k == |s.events| then s
    else Sim(s.events[..k] + s.events[k + 1..], s.diaries[cal := Without(s.Diary(cal), s.events[k].slot)])
  }

  lemma {:induction false} FindsFirst(events: seq<Entry>, ref: int, k: nat)
    requires k <= |events| && (forall i | 0 <= i < k :: events[i].ref != ref)
    requires k < |events| ==> events[k].ref == ref
    ensures Find(events, ref) == k
  {
  }

  class SimulatedBackend {
    var events: seq<Entry>
    var diaries: map<string, seq<Slot>>

    ghost function State(): Sim
      reads this
    {
      Sim(events, diaries)
    }

    method CreateEvent(cal: string, booking: string, slot: Slot) returns (ref: int)
      modifies this
      ensures ref == NextRef(old(State())) && State() == Created(old(State()), cal, booking, slot)
    {
      ref := |events| + 1;
      events := events + [Entry(booking, ref, slot)];
      var diary := if cal in diaries then diaries[cal] else [];
      diaries := diaries[cal := diary + [slot]];
    }

    method DeleteEvent(cal: string, ref: int)
      modifies this
      ensures State() == Deleted(old(State()), cal, ref)
    {
      var k := 0;
      while k < |events| && events[k].ref != ref
        invariant 0 <= k <= |events|
        invariant forall i | 0 <= i < k :: events[i].ref != ref
      {
        k := k + 1;
      }
      FindsFirst(events, ref, k);
      if k == |events| {
        return;
      }
      Drop(cal, k);
    }

    method Drop(cal: string, k: nat)
      requires k < |events|
      modifies this
      ensures events == old(events)[..k] + old(events)[k + 1..]
      ensures diaries == old(diaries)[cal := Without(old(State()).Diary(cal), old(events)[k].slot)]
    {
      var gone := events[k];
      events := events[..k] + events[k + 1..];
      var diary := if cal in diaries then diaries[cal] else [];
      diaries := diaries[cal := Without(diary, gone.slot)];
    }
  }

  /**
   Deleting by the reference that creating returned undoes the creation exactly when no entry held
   before already carries that reference; otherwise somebody else's appointment is dropped.
   */
  lemma DeleteUndoesCreate(s: Sim, cal: string, booking: string, slot: Slot)
    requires forall e | e in s.events :: e.booking != booking
    ensures Deleted(Created(s, cal, booking, slot), cal, NextRef(s)).Same(s) <==> !s.Held(NextRef(s))
  {
    if s.Held(NextRef(s)) {
      HeldRefDropsAnother(s, cal, booking, slot);
    } else {
      FreshRefIsUndone(s, cal, booking, slot);
    }
  }

  lemma HeldRefDropsAnother(s: Sim, cal: string, booking: string, slot: Slot)
    requires (forall e | e in s.events :: e.booking != booking) && s.Held(NextRef(s))
    ensures multiset(Deleted(Created(s, cal, booking, slot), cal, NextRef(s)).events) != multiset(s.events)
  {
    var entry := Entry(booking, NextRef(s), slot);
    HeldIsFoundFirst(s.events, entry);
    var left := Deleted(Created(s, cal, booking, slot), cal, NextRef(s)).events;
    LastStays(s.events, entry, Find(s.events + [entry], entry.ref), left);
    NotTheSame(left, s.events, entry);
  }

  lemma NotTheSame(a: seq<Entry>, b: seq<Entry>, entry: Entry)
    requires entry in a && entry !in b
    ensures multiset(a) != multiset(b)
  {
    assert entry in multiset(a) && entry !in multiset(b);
  }

  lemma HeldIsFoundFirst(events: seq<Entry>, entry: Entry)
    requires exists i | 0 <= i < |events| :: events[i].ref == entry.ref
    ensures Find(events + [entry], entry.ref) < |events|
  {
    var i :| 0 <= i < |events| && events[i].ref == entry.ref;
    assert (events + [entry])[i] == events[i];
  }

  /** With an earlier entry gone, the one appended remains. */
  lemma LastStays(events: seq<Entry>, entry: Entry, k: nat, left: seq<Entry>)
    requires k < |events| && left == (events + [entry])[..k] + (events + [entry])[k + 1..]
    ensures entry in left
  {
    assert left[|left| - 1] == entry;
  }

  lemma FreshRefIsUndone(s: Sim, cal: string, booking: string, slot: Slot)
    requires !s.Held(NextRef(s))
    ensures Deleted(Created(s, cal, booking, slot), cal, NextRef(s)).Same(s)
  {
    var e := Entry(booking, NextRef(s), slot);
    FindAppended(s.events, e);
    DeletedLast(Created(s, cal, booking, slot), cal, e, s.events);
    DiaryUndone(s, cal, booking, slot);
  }

  /** The entry found is the last one, and goes. */
  lemma DeletedLast(c: Sim, cal: string, e: Entry, events: seq<Entry>)
    requires c.events == events + [e] && Find(c.events, e.ref) == |events|
    requires c.events[..|events|] + c.events[|events| + 1..] == events
    ensures Deleted(c, cal, e.ref) == Sim(events, c.diaries[cal := Without(c.Diary(cal), e.slot)])
  {
    assert c.events[|events|] == e;
  }

  /** Every diary has the periods it had. */
  lemma DiaryUndone(s: Sim, cal: string, booking: string, slot: Slot)
    ensures var c := Created(s, cal, booking, slot);
      Sim(s.events, c.diaries[cal := Without(c.Diary(cal), slot)]).Same(s)
  {
    var was := s.Diary(cal);
    DiaryRewritten(s, cal, booking, slot, Without(was + [slot], slot));
    DropAppended(was, slot);
    OneDiaryReordered(s, s.diaries[cal := Without(was + [slot], slot)], cal);
  }

  lemma DiaryRewritten(s: Sim, cal: string, booking: string, slot: Slot, diary: seq<Slot>)
    ensures var c := Created(s, cal, booking, slot);
      c.Diary(cal) == s.Diary(cal) + [slot] && c.diaries[cal := diary] == s.diaries[cal := diary]
  {
  }

  lemma OneDiaryReordered(s: Sim, back: map<string, seq<Slot>>, cal: string)
    requires cal in back && multiset(back[cal]) == multiset(s.Diary(cal))
    requires back == s.diaries[cal := back[cal]]
    ensures Sim(s.events, back).Same(s)
  {
    forall other
      ensures multiset(Sim(s.events, back).Diary(other)) == multiset(s.Diary(other))
    {
      assert other != cal ==> Sim(s.events, back).Diary(other) == s.Diary(other);
    }
  }

  lemma FindAppended(events: seq<Entry>, e: Entry)
    requires forall i | 0 <= i < |events| :: events[i].ref != e.ref
    ensures var all := events + [e];
      Find(all, e.ref) == |events| && all[..|events|] + all[|events| + 1..] == events
  {
    var all := events + [e];
    assert all[|events|].ref == e.ref;
    assert forall i | 0 <= i < |events| :: all[i] == events[i];
  }

  lemma DropAppended(slots: seq<Slot>, slot: Slot)
    ensures multiset(Without(slots + [slot], slot)) == multiset(slots)
  {
    assert multiset(slots + [slot]) == multiset(slots) + multiset{slot};
  }

  /** Creating adds one entry, numbered after those held, and makes its time busy in that diary alone. */
  lemma CreatedExactly(s: Sim, cal: string, booking: string, slot: Slot)
    ensures var c := Created(s, cal, booking, slot);
      && c.events == s.events + [Entry(booking, |s.events| + 1, slot)]
      && c.Diary(cal) == s.Diary(cal) + [slot]
      && forall other | other != cal :: c.Diary(other) == s.Diary(other)
  {
  }

  /** Deleting takes away the first entry with the reference, and its time from that diary; or nothing, if there is none. */
  lemma DeletedExactly(s: Sim, cal: string, ref: int, k: nat)
    requires k <= |s.events| && (forall i | 0 <= i < k :: s.events[i].ref != ref)
    requires k < |s.events| ==> s.events[k].ref == ref
    ensures var d := Deleted(s, cal, ref);
      if k == |s.events| then d == s
      else
        && d.events == s.events[..k] + s.events[k + 1..]
        && multiset(d.Diary(cal)) == multiset(s.Diary(cal)) - multiset{s.events[k].slot}
        && forall other | other != cal :: d.Diary(other) == s.Diary(other)
  {
    FindsFirst(s.events, ref, k);
  }

  /** After creations only, references run 1, 2, .. n; a deletion then makes the last one repeat. */
  lemma RefsRepeat(s: Sim, cal: string, ref: int)
    requires forall i | 0 <= i < |s.events| :: s.events[i].ref == i + 1
    requires 1 <= ref <= |s.events|
    ensures var d := Deleted(s, cal, ref); d.Held(NextRef(d)) <==> ref < |s.events|
  {
    var d := Deleted(s, cal, ref);
    var k := Find(s.events, ref);
    assert s.events[ref - 1].ref == ref;
    assert k == ref - 1 && NextRef(d) == |s.events|;
    if ref < |s.events| {
      assert d.events[|d.events| - 1].ref == |s.events|;
    }
  }
}
