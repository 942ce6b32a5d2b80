/**
 Booking, moving and cancelling appointments in shared diaries without ever double-booking
 (apps/api/parlio_api/calendar.py).
 */
module Bookings {
  import opened Wrappers
  import opened Clock
  import opened Opening
  import opened FreeSlots
  import Availability

  /** A diary as the provider sees it: an account and one of its calendars. */
  datatype Calendar = Calendar(account: string, name: string)

  /** `services` is the catalogue of the connection's rules. */
  datatype Connection = Connection(id: string, account: string, calendarId: string, bookable: bool, rules: Rules,
                                   services: map<string, Service>)
  {
    function ServiceOf(service: Option<string>): Option<Service> {
      if service.Some? && service.value != "" && service.value in services then Some(services[service.value]) else None
    }

    /** A service is asked for that is not in the catalogue. */
    predicate Unknown(service: Option<string>) {
      service.Some? && service.value != "" && ServiceOf(service).None? && services != map[]
    }

    function Diary(): Calendar {
      Calendar(account, if calendarId == "" then "primary" else calendarId)
    }

    function Pad(): (p: int)
      ensures 0 <= p
    {
      rules.bufferMinutes * MINUTE
    }
  }

  datatype Resource = Resource(id: string, connectionId: Option<string>, calendarId: string,
                               hours: Option<Schedule>, active: bool)

  /** The tenant's set-up, which does not change during a run. */
  datatype Config = Config(primary: Connection, conns: map<string, Connection>, team: map<string, Resource>) {
    predicate Valid() {
      && primary.id in conns && conns[primary.id] == primary
      && (forall k | k in conns :: conns[k].id == k)
      && (forall k | k in team :: team[k].id == k)
    }

    function Base(r: Resource, default: Connection): Option<Connection> {
      if r.connectionId.Some? && r.connectionId.value != "" && r.connectionId.value != default.id then
        if r.connectionId.value in conns && conns[r.connectionId.value].bookable
        then Some(conns[r.connectionId.value]) else None
      else Some(default)
    }

    /** The connection, with the member's own calendar, that a member books into. */
    function ConnFor(r: Resource, default: Connection): Option<Connection> {
      match Base(r, default)
      case None => None
      case Some(base) => Some(base.(calendarId := if r.calendarId != "" then r.calendarId else base.calendarId))
    }

    /** A booking made for `r` is looked up where it was made: see CalendarIsFoundAgain. */
    predicate Traced(r: Resource, default: Connection) {
      r.calendarId != "" || (Base(r, default).Some? && Base(r, default).value.Diary().name == "primary")
    }

    /** The connection a stored booking is looked up under when it is changed. */
    function BookingConn(b: Booking): Option<Connection> {
      if b.connectionId !in conns then None
      else if b.resourceId.Some? && b.resourceId.value in team then
        Some(conns[b.connectionId].(calendarId := team[b.resourceId.value].calendarId))
      else Some(conns[b.connectionId])
    }
  }

  datatype Status = Confirmed | RescheduleRequested | Cancelled
  datatype Source = ByCalendar | ByScheduler
  type Ref = int

  datatype Booking = Booking(connectionId: string, resourceId: Option<string>, service: Option<string>, slot: Slot,
                             ref: Option<Ref>, status: Status, source: Source)
  {
    /** Holds an entry in one of our diaries. */
    predicate Live() {
      status != Cancelled && source == ByCalendar
    }
  }

  datatype Event = Event(cal: Calendar, ref: Ref)

  /**
   Everything stored: bookings by id, the entries we created by diary and provider reference, and
   the entries the owners keep for themselves.
   */
  datatype World = World(bookings: map<string, Booking>, own: map<Event, Slot>, others: map<Calendar, set<Slot>>) {
    function Others(cal: Calendar): set<Slot> {
      if cal in others then others[cal] else {}
    }

    /** `slot` stands in the diary, ours or the owner's. */
    ghost predicate Entered(cal: Calendar, slot: Slot) {
      slot in Others(cal) || exists e | e in own :: e.cal == cal && own[e] == slot
    }

    function Busy(cal: Calendar, range: Slot): set<Slot> {
      (set e | e in own && e.cal == cal && own[e].Overlaps(range) :: own[e])
      + (set s | s in Others(cal) && s.Overlaps(range))
    }

    /** The diary check at booking time. */
    predicate Free(cal: Calendar, slot: Slot, pad: int) {
      forall s | s in Busy(cal, slot.Padded(pad)) :: !slot.Padded(pad).Overlaps(s)
    }

    /** The same check when an appointment moves: entries equal to its old slot do not count. */
    predicate FreeExcept(cal: Calendar, slot: Slot, pad: int, was: Slot) {
      forall s | s in Busy(cal, slot.Padded(pad)) :: !slot.Padded(pad).Overlaps(s) || s == was
    }
  }

  datatype Error = NotFound | AlreadyCancelled | Managed | NoCalendar | NoResource | UnknownService | NobodyDoesThat
                 | Refused(why: Refusal) | SlotTaken

  type Outcome = Result<Booking, Error>

  /** What a caller asks for; `hours` are the booking hours in force for the tenant. */
  datatype Request = Request(conn: string, start: int, service: Option<string>, duration: Option<nat>,
                             now: int, hours: Schedule)
  {
    function Ask(conn: Connection, own: Option<Schedule>): Query {
      Query(conn.rules, if own.Some? then own.value else hours, conn.ServiceOf(service), duration, now)
    }
  }

  // -- the four operations as steps on the store ------------------------------------------------

  /** `to` is the diary booked into; the provider answers with `ref`. */
  function Place(w: World, id: string, b: Booking, to: Connection, ref: Ref): World {
    w.(bookings := w.bookings[id := b.(ref := Some(ref))], own := w.own[Event(to.Diary(), ref) := b.slot])
  }

  /** Deletes the old entry and creates the new one. */
  function Move(w: World, id: string, b: Booking, from: Connection, to: Connection, ref: Ref): World {
    var dropped := if b.ref.Some? then w.(own := w.own - {Event(from.Diary(), b.ref.value)}) else w;
    Place(dropped, id, b.(connectionId := to.id), to, ref)
  }

  /** May `r` (or nobody in particular) take the appointment, and in which diary? */
  function Taker(cfg: Config, w: World, req: Request, r: Option<Resource>): Result<Connection, Error> {
    if req.conn !in cfg.conns || !cfg.conns[req.conn].bookable then Err(NoCalendar)
    else if cfg.conns[req.conn].Unknown(req.service) then Err(UnknownService)
    else
      var conn := cfg.conns[req.conn];
      var q := req.Ask(conn, if r.Some? then r.value.hours else None);
      match if r.Some? then cfg.ConnFor(r.value, conn) else Some(conn)
      case None => Err(NoCalendar)
      case Some(to) =>
        if SlotAllowed(q, req.start).Some? then Err(Refused(SlotAllowed(q, req.start).value))
        else if !w.Free(to.Diary(), q.SlotAt(req.start), conn.Pad()) then Err(SlotTaken)
        else Ok(to)
  }

  function NewBooking(cfg: Config, req: Request, r: Option<Resource>, to: Connection): Booking
    requires req.conn in cfg.conns
  {
    Booking(to.id, if r.Some? then Some(r.value.id) else None,
            if cfg.conns[req.conn].ServiceOf(req.service).Some? then req.service else None,
            req.Ask(cfg.conns[req.conn], None).SlotAt(req.start), None, Confirmed, ByCalendar)
  }

  function Editable(w: World, id: string): Result<Booking, Error> {
    if id !in w.bookings then Err(NotFound)
    else if w.bookings[id].status == Cancelled then Err(AlreadyCancelled)
    else if w.bookings[id].source == ByScheduler then Err(Managed)
    else Ok(w.bookings[id])
  }

  /** The diary a booking moves to when it is handed to another member, if that is possible. */
  function ReassignTo(cfg: Config, w: World, id: string, rid: string): Result<Connection, Error> {
    match Editable(w, id)
    case Err(e) => Err(e)
    case Ok(b) =>
      if rid !in cfg.team || !cfg.team[rid].active then Err(NoResource)
      else
        match cfg.ConnFor(cfg.team[rid], cfg.primary)
        case None => Err(NoCalendar)
        case Some(to) =>
          if w.Free(to.Diary(), b.slot, cfg.primary.Pad()) then Ok(to) else Err(SlotTaken)
  }

  /**
   What is asked of the rules when a booking moves: the primary connection's rules and catalogue, the
   member's own hours if any, and no duration, whatever the booking's length.
   */
  function MoveQuery(cfg: Config, b: Booking, now: int, hours: Schedule): Query {
    var own := if b.resourceId.Some? && b.resourceId.value in cfg.team then cfg.team[b.resourceId.value].hours else None;
    Query(cfg.primary.rules, if own.Some? then own.value else hours, cfg.primary.ServiceOf(b.service), None, now)
  }

  /** The moved slot, if the booking may move to `start`; its length is kept. */
  function RescheduleTo(cfg: Config, w: World, id: string, start: int, now: int, hours: Schedule): Result<Slot, Error> {
    match Editable(w, id)
    case Err(e) => Err(e)
    case Ok(b) =>
      var slot := Slot(start, start + (b.slot.end - b.slot.start));
      match cfg.BookingConn(b)
      case None => Err(NoCalendar)
      case Some(conn) =>
        var q := MoveQuery(cfg, b, now, hours);
        if SlotAllowed(q, start).Some? then Err(Refused(SlotAllowed(q, start).value))
        else if w.FreeExcept(conn.Diary(), slot, cfg.primary.Pad(), b.slot) then Ok(slot)
        else Err(SlotTaken)
  }

  datatype Op =
    | Book(id: string, req: Request, taker: Option<string>, ref: Ref)
    | Reassign(id: string, rid: string, ref: Ref)
    | Reschedule(id: string, start: int, now: int, hours: Schedule, ref: Ref)
    | Cancel(id: string)
    | OwnerEdits(cal: Calendar, entries: set<Slot>)

  function Step(cfg: Config, w: World, op: Op): World {
    match op
    case Book(id, req, taker, ref) =>
      if id in w.bookings || (taker.Some? && taker.value !in cfg.team) then w
      else
        var r := if taker.Some? then Some(cfg.team[taker.value]) else None;
        (match Taker(cfg, w, req, r)
         case Err(_) => w
         case Ok(to) => Place(w, id, NewBooking(cfg, req, r, to), to, ref))
    case Reassign(id, rid, ref) =>
      (match ReassignTo(cfg, w, id, rid)
       case Err(_) => w
       case Ok(to) =>
         var b := w.bookings[id];
         Move(w, id, b.(resourceId := Some(rid)), OldConn(cfg, b), to, ref))
    case Reschedule(id, start, now, hours, ref) =>
      (match RescheduleTo(cfg, w, id, start, now, hours)
       case Err(_) => w
       case Ok(slot) =>
         var b := w.bookings[id];
         var conn := OldConn(cfg, b);
         Move(w, id, b.(slot := slot, status := if b.status == RescheduleRequested then Confirmed else b.status),
              conn, conn, ref))
    case Cancel(id) =>
      (match Editable(w, id)
       case Err(_) => w
       case Ok(b) =>
         var own := if b.ref.Some? then w.own - {Event(OldConn(cfg, b).Diary(), b.ref.value)} else w.own;
         w.(own := own, bookings := w.bookings[id := b.(status := Cancelled)]))
    case OwnerEdits(cal, entries) =>
      w.(others := w.others[cal := entries])
  }

  /** A booking's connection; connections are never deleted during a run. */
  function OldConn(cfg: Config, b: Booking): Connection {
    match cfg.BookingConn(b)
    case None => cfg.primary
    case Some(c) => c
  }

  function Run(cfg: Config, w: World, ops: seq<Op>): World
    decreases |ops|
  {
    if ops == [] then w else Run(cfg, Step(cfg, w, ops[0]), ops[1..])
  }

  // -- no double booking -----------------------------------------------------------------------

  /** At least `gap` between the two appointments. */
  ghost predicate Apart(a: Slot, b: Slot, gap: int) {
    a.end + gap <= b.start || b.end + gap <= a.start
  }

  ghost function EventOf(cfg: Config, b: Booking): Event
    requires b.ref.Some?
  {
    Event(OldConn(cfg, b).Diary(), b.ref.value)
  }

  /** The entries we created are exactly the slots of the live bookings, one each. */
  ghost predicate DiariesMatch(cfg: Config, w: World) {
    EveryBookingEntered(cfg, w) && EveryEntryBooked(cfg, w) && NoEntryShared(cfg, w)
  }

  ghost predicate EveryBookingEntered(cfg: Config, w: World) {
    forall id | id in w.bookings && w.bookings[id].Live() ::
      && w.bookings[id].connectionId in cfg.conns && w.bookings[id].ref.Some?
      && EventOf(cfg, w.bookings[id]) in w.own
      && w.own[EventOf(cfg, w.bookings[id])] == w.bookings[id].slot
  }

  ghost predicate EveryEntryBooked(cfg: Config, w: World) {
    forall e | e in w.own :: exists id :: Holds(cfg, w, id, e)
  }

  ghost predicate NoEntryShared(cfg: Config, w: World) {
    forall i, j, e | Holds(cfg, w, i, e) && Holds(cfg, w, j, e) :: i == j
  }

  ghost predicate Holds(cfg: Config, w: World, id: string, e: Event) {
    id in w.bookings && w.bookings[id].Live() && w.bookings[id].ref.Some? && EventOf(cfg, w.bookings[id]) == e
  }

  /** Entries of one diary stay at least `gap` apart. */
  ghost predicate WellSpaced(w: World, gap: int) {
    && (forall e | e in w.own :: w.own[e].start < w.own[e].end)
    && (forall e, f | e in w.own && f in w.own && e != f && e.cal == f.cal :: Apart(w.own[e], w.own[f], gap))
  }

  ghost predicate Inv(cfg: Config, w: World, gap: int) {
    DiariesMatch(cfg, w) && WellSpaced(w, gap)
  }

  /** The entry a step creates, if it goes ahead. */
  function Created(cfg: Config, w: World, op: Op): Option<Event> {
    match op
    case Book(id, req, taker, ref) =>
      if taker.Some? && taker.value !in cfg.team then None
      else
        (match Taker(cfg, w, req, if taker.Some? then Some(cfg.team[taker.value]) else None)
         case Err(_) => None
         case Ok(to) => Some(Event(to.Diary(), ref)))
    case Reassign(id, rid, ref) =>
      (match ReassignTo(cfg, w, id, rid) case Err(_) => None case Ok(to) => Some(Event(to.Diary(), ref)))
    case Reschedule(id, start, now, hours, ref) =>
      (match RescheduleTo(cfg, w, id, start, now, hours)
       case Err(_) => None
       case Ok(_) => Some(Event(OldConn(cfg, w.bookings[id]).Diary(), ref)))
    case _ => None
  }

  /** The provider never hands out a reference that is in use in the same diary. */
  ghost predicate FreshRefs(cfg: Config, w: World, ops: seq<Op>)
    decreases |ops|
  {
    ops == [] ||
    ((Created(cfg, w, ops[0]).Some? ==> Created(cfg, w, ops[0]).value !in w.own)
     && FreshRefs(cfg, Step(cfg, w, ops[0]), ops[1..]))
  }

  /** A booking that goes ahead for a member is looked up, afterwards, in the diary it went into. */
  ghost predicate FoundAgain(cfg: Config, w: World, op: Op) {
    match op
    case Book(id, req, taker, _) =>
      taker.Some? && id !in w.bookings && Created(cfg, w, op).Some? ==>
        req.conn in cfg.conns && cfg.Traced(cfg.team[taker.value], cfg.conns[req.conn])
    case Reassign(_, rid, _) => Created(cfg, w, op).Some? ==> rid in cfg.team && cfg.Traced(cfg.team[rid], cfg.primary)
    case _ => true
  }

  ghost predicate AlwaysFoundAgain(cfg: Config, w: World, ops: seq<Op>)
    decreases |ops|
  {
    ops == [] || (FoundAgain(cfg, w, ops[0]) && AlwaysFoundAgain(cfg, Step(cfg, w, ops[0]), ops[1..]))
  }

  /** `gap` is no more than the buffer of any of the tenant's connections. */
  ghost predicate GapWithinBuffers(cfg: Config, gap: int) {
    0 <= gap && forall k | k in cfg.conns :: gap <= cfg.conns[k].Pad()
  }

  /**
   A booking is looked up in the diary it was made in exactly when the member names a calendar, or
   the connection it falls back on uses the default one.
   */
  lemma CalendarIsFoundAgain(cfg: Config, r: Resource, default: Connection, b: Booking)
    requires cfg.Valid() && default.id in cfg.conns && cfg.conns[default.id] == default
    requires r.id in cfg.team && cfg.team[r.id] == r && cfg.ConnFor(r, default).Some?
    requires b.connectionId == cfg.ConnFor(r, default).value.id && b.resourceId == Some(r.id)
    ensures cfg.BookingConn(b).Some?
    ensures cfg.BookingConn(b).value.Diary() == cfg.ConnFor(r, default).value.Diary()
            <==> r.calendarId != "" || cfg.Base(r, default).value.Diary().name == "primary"
    ensures cfg.BookingConn(b).value.Diary() == cfg.ConnFor(r, default).value.Diary() <==> cfg.Traced(r, default)
  {
  }

  lemma FreeIsApart(w: World, cal: Calendar, slot: Slot, pad: int, gap: int, e: Event)
    requires w.Free(cal, slot, pad) && 0 <= gap <= pad && e in w.own && e.cal == cal
    ensures Apart(slot, w.own[e], gap)
  {
    assert slot.Padded(pad).Overlaps(w.own[e]) ==> w.own[e] in w.Busy(cal, slot.Padded(pad));
  }

  /** Excluding by equal slot excludes just the booking's own entry. */
  lemma ExclusionIsExact(cfg: Config, w: World, gap: int, id: string, e: Event)
    requires Inv(cfg, w, gap) && 0 <= gap
    requires id in w.bookings && w.bookings[id].Live()
    requires e in w.own && e.cal == EventOf(cfg, w.bookings[id]).cal
    ensures w.own[e] == w.bookings[id].slot <==> e == EventOf(cfg, w.bookings[id])
  {
  }

  /**
   But it also leaves out what an owner entered at the same times: the moved appointment is sure to
   clear every owner's entry exactly when no such entry lies in its way.
   */
  lemma OwnersEntryIsExcludedToo(w: World, cal: Calendar, moved: Slot, pad: int, was: Slot)
    requires w.FreeExcept(cal, moved, pad, was)
    ensures (forall s | s in w.Others(cal) :: !moved.Padded(pad).Overlaps(s))
            <==> was !in w.Others(cal) || !moved.Padded(pad).Overlaps(was)
  {
    forall s | s in w.Others(cal) && moved.Padded(pad).Overlaps(s)
      ensures s == was
    {
      assert s in w.Busy(cal, moved.Padded(pad));
    }
  }

  /** For example: moved by an hour, a two-hour appointment may land on an entry its owner made at its old times. */
  lemma MovedOntoOwnersEntry(cal: Calendar, start: int)
    ensures var was, moved := Slot(start, start + 2 * HOUR), Slot(start + HOUR, start + 3 * HOUR);
      var w := World(map[], map[Event(cal, 1) := was], map[cal := {was}]);
      w.FreeExcept(cal, moved, 0, was) && was in w.Others(cal) && moved.Overlaps(was)
  {
  }

  lemma CancelKeeps(cfg: Config, w: World, gap: int, id: string)
    requires Inv(cfg, w, gap) && id in w.bookings && w.bookings[id].Live()
    ensures Inv(cfg, Step(cfg, w, Cancel(id)), gap)
  {
    var w' := Step(cfg, w, Cancel(id));
    assert w'.own == w.own - {EventOf(cfg, w.bookings[id])};
    assert Holds(cfg, w, id, EventOf(cfg, w.bookings[id]));
    assert forall i, e :: Holds(cfg, w', i, e) <==> i != id && Holds(cfg, w, i, e);
    EntryRemoved(cfg, w, w', gap, id, EventOf(cfg, w.bookings[id]));
  }

  /** Booking `id` lets go of its entry, and nothing else changes. */
  lemma EntryRemoved(cfg: Config, w: World, v: World, gap: int, id: string, gone: Event)
    requires Inv(cfg, w, gap) && Holds(cfg, w, id, gone) && v.own == w.own - {gone}
    requires forall i, e :: Holds(cfg, v, i, e) <==> i != id && Holds(cfg, w, i, e)
    requires forall i | i in v.bookings && v.bookings[i].Live() ::
               i != id && i in w.bookings && v.bookings[i] == w.bookings[i]
    ensures Inv(cfg, v, gap)
  {
    forall i | i in v.bookings && v.bookings[i].Live()
      ensures EventOf(cfg, v.bookings[i]) in v.own
    {
      assert Holds(cfg, w, i, EventOf(cfg, w.bookings[i]));
    }
  }

  /** A booking that holds no entry yet, and room for its entry in the diary `to`. */
  ghost predicate Fits(cfg: Config, w: World, gap: int, id: string, b: Booking, to: Connection, ref: Ref) {
    && (id in w.bookings ==> !w.bookings[id].Live())
    && b.Live() && b.slot.start < b.slot.end && b.connectionId in cfg.conns
    && Event(to.Diary(), ref) !in w.own
    && (forall e | e in w.own && e.cal == to.Diary() :: Apart(b.slot, w.own[e], gap))
  }

  /** What makes it safe to enter it: it is looked up in that same diary later. */
  ghost predicate Placeable(cfg: Config, w: World, gap: int, id: string, b: Booking, to: Connection, ref: Ref) {
    Fits(cfg, w, gap, id, b, to, ref) && OldConn(cfg, b).Diary() == to.Diary()
  }

  /** Who holds what after a booking is entered. */
  lemma HoldersAfterPlace(cfg: Config, w: World, gap: int, id: string, b: Booking, to: Connection, ref: Ref)
    requires Placeable(cfg, w, gap, id, b, to, ref)
    ensures forall i, e :: Holds(cfg, Place(w, id, b, to, ref), i, e) <==>
              if i == id then e == Event(to.Diary(), ref) else Holds(cfg, w, i, e)
  {
  }

  lemma PlaceMatches(cfg: Config, w: World, gap: int, id: string, b: Booking, to: Connection, ref: Ref)
    requires DiariesMatch(cfg, w) && Placeable(cfg, w, gap, id, b, to, ref)
    ensures DiariesMatch(cfg, Place(w, id, b, to, ref))
  {
    var w', entry := Place(w, id, b, to, ref), Event(to.Diary(), ref);
    HoldersAfterPlace(cfg, w, gap, id, b, to, ref);
    forall e | e in w'.own
      ensures exists i :: Holds(cfg, w', i, e)
    {
      if e == entry {
        assert Holds(cfg, w', id, e);
      } else {
        var i :| Holds(cfg, w, i, e);
        assert i != id && Holds(cfg, w', i, e);
      }
    }
    HeldIsEntered(cfg, w);
    forall i, j, e | Holds(cfg, w', i, e) && Holds(cfg, w', j, e)
      ensures i == j
    {
    }
    BookingsStayEntered(cfg, w, gap, id, b, to, ref);
  }

  lemma HeldIsEntered(cfg: Config, w: World)
    requires EveryBookingEntered(cfg, w)
    ensures forall i, e | Holds(cfg, w, i, e) :: e in w.own
  {
  }

  lemma BookingsStayEntered(cfg: Config, w: World, gap: int, id: string, b: Booking, to: Connection, ref: Ref)
    requires EveryBookingEntered(cfg, w) && Placeable(cfg, w, gap, id, b, to, ref)
    ensures EveryBookingEntered(cfg, Place(w, id, b, to, ref))
  {
  }

  lemma PlaceSpaced(w: World, gap: int, id: string, b: Booking, to: Connection, ref: Ref)
    requires WellSpaced(w, gap) && b.slot.start < b.slot.end
    requires forall e | e in w.own && e.cal == to.Diary() :: Apart(b.slot, w.own[e], gap)
    ensures WellSpaced(Place(w, id, b, to, ref), gap)
  {
  }

  /** A booking entered in one diary and looked up in another has no entry of its own. */
  lemma LostEntry(cfg: Config, w: World, gap: int, id: string, b: Booking, to: Connection, ref: Ref)
    requires DiariesMatch(cfg, w) && Fits(cfg, w, gap, id, b, to, ref) && OldConn(cfg, b).Diary() != to.Diary()
    ensures !DiariesMatch(cfg, Place(w, id, b, to, ref))
  {
    var w' := Place(w, id, b, to, ref);
    var e := EventOf(cfg, w'.bookings[id]);
    assert e == Event(OldConn(cfg, b).Diary(), ref);
    if e in w'.own {
      var i :| Holds(cfg, w, i, e);
      assert i != id && Holds(cfg, w', i, e) && Holds(cfg, w', id, e);
    }
  }

  /** Entering a booking keeps diaries and bookings matched exactly when it is looked up where it is entered. */
  lemma PlaceKeeps(cfg: Config, w: World, gap: int, id: string, b: Booking, to: Connection, ref: Ref)
    requires Inv(cfg, w, gap) && Fits(cfg, w, gap, id, b, to, ref)
    ensures Inv(cfg, Place(w, id, b, to, ref), gap) <==> OldConn(cfg, b).Diary() == to.Diary()
  {
    if OldConn(cfg, b).Diary() != to.Diary() {
      LostEntry(cfg, w, gap, id, b, to, ref);
      return;
    }
    assert DiariesMatch(cfg, Place(w, id, b, to, ref)) by {
      PlaceMatches(cfg, w, gap, id, b, to, ref);
    }
    assert WellSpaced(Place(w, id, b, to, ref), gap) by {
      PlaceSpaced(w, gap, id, b, to, ref);
    }
  }

  /** A move is a cancellation followed by a fresh entry. */
  lemma MoveIsCancelThenPlace(cfg: Config, w: World, id: string, b: Booking, to: Connection, ref: Ref)
    requires id in w.bookings && w.bookings[id].Live() && b.ref == w.bookings[id].ref
    ensures Move(w, id, b, OldConn(cfg, w.bookings[id]), to, ref)
            == Place(Step(cfg, w, Cancel(id)), id, b.(connectionId := to.id), to, ref)
  {
  }

  lemma TakerMayBePlaced(cfg: Config, w: World, gap: int, id: string, req: Request, r: Option<Resource>,
                         to: Connection, ref: Ref)
    requires cfg.Valid() && GapWithinBuffers(cfg, gap)
    requires id !in w.bookings && (r.Some? ==> r.value.id in cfg.team && cfg.team[r.value.id] == r.value)
    requires Taker(cfg, w, req, r) == Ok(to) && Event(to.Diary(), ref) !in w.own
    ensures Fits(cfg, w, gap, id, NewBooking(cfg, req, r, to), to, ref)
    ensures OldConn(cfg, NewBooking(cfg, req, r, to)).Diary() == to.Diary()
            <==> (r.Some? ==> cfg.Traced(r.value, cfg.conns[req.conn]))
  {
    var b := NewBooking(cfg, req, r, to);
    if r.Some? {
      CalendarIsFoundAgain(cfg, r.value, cfg.conns[req.conn], b);
    }
    forall e | e in w.own && e.cal == to.Diary()
      ensures Apart(b.slot, w.own[e], gap)
    {
      FreeIsApart(w, to.Diary(), b.slot, cfg.conns[req.conn].Pad(), gap, e);
    }
  }

  lemma BookKeeps(cfg: Config, w: World, gap: int, op: Op)
    requires cfg.Valid() && GapWithinBuffers(cfg, gap) && Inv(cfg, w, gap)
    requires op.Book? && (Created(cfg, w, op).Some? ==> Created(cfg, w, op).value !in w.own)
    ensures Inv(cfg, Step(cfg, w, op), gap) <==> FoundAgain(cfg, w, op)
  {
    if op.id !in w.bookings && (op.taker.Some? ==> op.taker.value in cfg.team) {
      var r := if op.taker.Some? then Some(cfg.team[op.taker.value]) else None;
      match Taker(cfg, w, op.req, r)
      case Err(_) =>
      case Ok(to) =>
        TakerMayBePlaced(cfg, w, gap, op.id, op.req, r, to, op.ref);
        PlaceKeeps(cfg, w, gap, op.id, NewBooking(cfg, op.req, r, to), to, op.ref);
    }
  }

  lemma ReassignMayBePlaced(cfg: Config, w: World, gap: int, id: string, rid: string, to: Connection, ref: Ref)
    requires cfg.Valid() && GapWithinBuffers(cfg, gap) && Inv(cfg, w, gap)
    requires ReassignTo(cfg, w, id, rid) == Ok(to) && Event(to.Diary(), ref) !in w.own
    ensures var b := w.bookings[id].(resourceId := Some(rid), connectionId := to.id);
      && Fits(cfg, Step(cfg, w, Cancel(id)), gap, id, b, to, ref)
      && (OldConn(cfg, b).Diary() == to.Diary() <==> cfg.Traced(cfg.team[rid], cfg.primary))
  {
    var b := w.bookings[id].(resourceId := Some(rid), connectionId := to.id);
    assert EventOf(cfg, w.bookings[id]) in w.own;
    CalendarIsFoundAgain(cfg, cfg.team[rid], cfg.primary, b);
    forall e | e in w.own && e.cal == to.Diary()
      ensures Apart(b.slot, w.own[e], gap)
    {
      FreeIsApart(w, to.Diary(), b.slot, cfg.primary.Pad(), gap, e);
    }
  }

  lemma ReassignKeeps(cfg: Config, w: World, gap: int, op: Op)
    requires cfg.Valid() && GapWithinBuffers(cfg, gap) && Inv(cfg, w, gap)
    requires op.Reassign? && (Created(cfg, w, op).Some? ==> Created(cfg, w, op).value !in w.own)
    ensures Inv(cfg, Step(cfg, w, op), gap) <==> FoundAgain(cfg, w, op)
  {
    match ReassignTo(cfg, w, op.id, op.rid)
    case Err(_) =>
    case Ok(to) =>
      var b := w.bookings[op.id].(resourceId := Some(op.rid));
      CancelKeeps(cfg, w, gap, op.id);
      ReassignMayBePlaced(cfg, w, gap, op.id, op.rid, to, op.ref);
      MoveIsCancelThenPlace(cfg, w, op.id, b, to, op.ref);
      PlaceKeeps(cfg, Step(cfg, w, Cancel(op.id)), gap, op.id, b.(connectionId := to.id), to, op.ref);
  }

  lemma MovedMayBePlaced(cfg: Config, w: World, gap: int, id: string, start: int, now: int, hours: Schedule,
                         slot: Slot, b: Booking, ref: Ref)
    requires cfg.Valid() && GapWithinBuffers(cfg, gap) && Inv(cfg, w, gap)
    requires RescheduleTo(cfg, w, id, start, now, hours) == Ok(slot)
    requires b == w.bookings[id].(slot := slot, status := b.status) && b.status != Cancelled
    requires Event(OldConn(cfg, b).Diary(), ref) !in w.own
    ensures Placeable(cfg, Step(cfg, w, Cancel(id)), gap, id, b, OldConn(cfg, b), ref)
  {
    var cal, pad := OldConn(cfg, b).Diary(), cfg.primary.Pad();
    assert EventOf(cfg, w.bookings[id]) in w.own;
    forall e | e in w.own && e.cal == cal && e != EventOf(cfg, w.bookings[id])
      ensures Apart(slot, w.own[e], gap)
    {
      ExclusionIsExact(cfg, w, gap, id, e);
      assert slot.Padded(pad).Overlaps(w.own[e]) ==> w.own[e] in w.Busy(cal, slot.Padded(pad));
    }
  }

  lemma RescheduleKeeps(cfg: Config, w: World, gap: int, op: Op)
    requires cfg.Valid() && GapWithinBuffers(cfg, gap) && Inv(cfg, w, gap)
    requires op.Reschedule? && (Created(cfg, w, op).Some? ==> Created(cfg, w, op).value !in w.own)
    ensures Inv(cfg, Step(cfg, w, op), gap)
  {
    match RescheduleTo(cfg, w, op.id, op.start, op.now, op.hours)
    case Err(_) =>
    case Ok(slot) =>
      var was := w.bookings[op.id];
      var conn := OldConn(cfg, was);
      var b := was.(slot := slot, status := if was.status == RescheduleRequested then Confirmed else was.status);
      CancelKeeps(cfg, w, gap, op.id);
      MovedMayBePlaced(cfg, w, gap, op.id, op.start, op.now, op.hours, slot, b, op.ref);
      MoveIsCancelThenPlace(cfg, w, op.id, b, conn, op.ref);
      assert b.(connectionId := conn.id) == b;
      PlaceKeeps(cfg, Step(cfg, w, Cancel(op.id)), gap, op.id, b, conn, op.ref);
  }

  /** Every step keeps the rule, except a booking that will be looked up in another diary. */
  lemma StepKeeps(cfg: Config, w: World, gap: int, op: Op)
    requires cfg.Valid() && GapWithinBuffers(cfg, gap) && Inv(cfg, w, gap)
    requires Created(cfg, w, op).Some? ==> Created(cfg, w, op).value !in w.own
    ensures Inv(cfg, Step(cfg, w, op), gap) <==> FoundAgain(cfg, w, op)
  {
    match op
    case Book(_, _, _, _) => BookKeeps(cfg, w, gap, op);
    case Reassign(_, _, _) => ReassignKeeps(cfg, w, gap, op);
    case Reschedule(_, _, _, _, _) => RescheduleKeeps(cfg, w, gap, op);
    case Cancel(id) =>
      if Editable(w, id).Ok? {
        CancelKeeps(cfg, w, gap, id);
      }
    case OwnerEdits(_, _) => OwnerEditKeeps(cfg, w, Step(cfg, w, op), gap);
  }

  // -- a lookup that goes astray is never made good ------------------------------------------------

  /** An entry of ours outside the default calendars that no booking will find again. */
  ghost predicate Orphan(cfg: Config, w: World, e: Event) {
    e in w.own && e.cal.name != "primary" && forall i :: !Holds(cfg, w, i, e)
  }

  lemma OrphanBreaks(cfg: Config, w: World, gap: int, e: Event)
    requires Orphan(cfg, w, e)
    ensures !Inv(cfg, w, gap)
  {
  }

  /** A member's booking is looked up where it was made, or else in an account's default calendar. */
  lemma LookedUpThereOrByDefault(cfg: Config, r: Resource, default: Connection, b: Booking)
    requires cfg.Valid() && default.id in cfg.conns && cfg.conns[default.id] == default
    requires r.id in cfg.team && cfg.team[r.id] == r && cfg.ConnFor(r, default).Some?
    requires b.connectionId == cfg.ConnFor(r, default).value.id && b.resourceId == Some(r.id)
    ensures OldConn(cfg, b).Diary() == cfg.ConnFor(r, default).value.Diary() || OldConn(cfg, b).Diary().name == "primary"
    ensures OldConn(cfg, b).Diary() == cfg.ConnFor(r, default).value.Diary() <==> cfg.Traced(r, default)
    ensures !cfg.Traced(r, default) ==> cfg.ConnFor(r, default).value.Diary().name != "primary"
  {
    CalendarIsFoundAgain(cfg, r, default, b);
  }

  lemma PlaceLeavesOrphan(cfg: Config, w: World, e: Event, id: string, b: Booking, to: Connection, ref: Ref)
    requires Orphan(cfg, w, e) && Event(to.Diary(), ref) != e
    requires OldConn(cfg, b).Diary() == to.Diary() || OldConn(cfg, b).Diary().name == "primary"
    ensures Orphan(cfg, Place(w, id, b, to, ref), e)
  {
    var v := Place(w, id, b, to, ref);
    forall i
      ensures !Holds(cfg, v, i, e)
    {
      assert Holds(cfg, v, i, e) ==> i == id || Holds(cfg, w, i, e);
    }
  }

  lemma CancelLeavesOrphan(cfg: Config, w: World, e: Event, id: string)
    requires Orphan(cfg, w, e)
    ensures Orphan(cfg, Step(cfg, w, Cancel(id)), e)
  {
    var v := Step(cfg, w, Cancel(id));
    assert !Holds(cfg, w, id, e);
    forall i
      ensures !Holds(cfg, v, i, e)
    {
      assert Holds(cfg, v, i, e) ==> Holds(cfg, w, i, e);
    }
  }

  /** No step deletes an orphan, and no booking comes to hold it. */
  lemma OrphanStays(cfg: Config, w: World, op: Op, e: Event)
    requires cfg.Valid() && Orphan(cfg, w, e)
    requires Created(cfg, w, op).Some? ==> Created(cfg, w, op).value !in w.own
    ensures Orphan(cfg, Step(cfg, w, op), e)
  {
    match op
    case Book(_, _, _, _) => BookLeavesOrphan(cfg, w, op, e);
    case Reassign(_, _, _) => ReassignLeavesOrphan(cfg, w, op, e);
    case Reschedule(_, _, _, _, _) => RescheduleLeavesOrphan(cfg, w, op, e);
    case Cancel(id) => CancelLeavesOrphan(cfg, w, e, id);
    case OwnerEdits(_, _) =>
      assert forall i :: Holds(cfg, Step(cfg, w, op), i, e) <==> Holds(cfg, w, i, e);
  }

  lemma BookLeavesOrphan(cfg: Config, w: World, op: Op, e: Event)
    requires cfg.Valid() && Orphan(cfg, w, e) && op.Book?
    requires Created(cfg, w, op).Some? ==> Created(cfg, w, op).value !in w.own
    ensures Orphan(cfg, Step(cfg, w, op), e)
  {
    if op.id !in w.bookings && (op.taker.Some? ==> op.taker.value in cfg.team) {
      var r := if op.taker.Some? then Some(cfg.team[op.taker.value]) else None;
      match Taker(cfg, w, op.req, r)
      case Err(_) =>
      case Ok(to) =>
        var b := NewBooking(cfg, op.req, r, to);
        if r.Some? {
          LookedUpThereOrByDefault(cfg, r.value, cfg.conns[op.req.conn], b);
        }
        PlaceLeavesOrphan(cfg, w, e, op.id, b, to, op.ref);
    }
  }

  lemma ReassignLeavesOrphan(cfg: Config, w: World, op: Op, e: Event)
    requires cfg.Valid() && Orphan(cfg, w, e) && op.Reassign?
    requires Created(cfg, w, op).Some? ==> Created(cfg, w, op).value !in w.own
    ensures Orphan(cfg, Step(cfg, w, op), e)
  {
    match ReassignTo(cfg, w, op.id, op.rid)
    case Err(_) =>
    case Ok(to) =>
      var b := w.bookings[op.id].(resourceId := Some(op.rid));
      LookedUpThereOrByDefault(cfg, cfg.team[op.rid], cfg.primary, b.(connectionId := to.id));
      CancelLeavesOrphan(cfg, w, e, op.id);
      MoveIsCancelThenPlace(cfg, w, op.id, b, to, op.ref);
      PlaceLeavesOrphan(cfg, Step(cfg, w, Cancel(op.id)), e, op.id, b.(connectionId := to.id), to, op.ref);
  }

  lemma RescheduleLeavesOrphan(cfg: Config, w: World, op: Op, e: Event)
    requires cfg.Valid() && Orphan(cfg, w, e) && op.Reschedule?
    requires Created(cfg, w, op).Some? ==> Created(cfg, w, op).value !in w.own
    ensures Orphan(cfg, Step(cfg, w, op), e)
  {
    match RescheduleTo(cfg, w, op.id, op.start, op.now, op.hours)
    case Err(_) =>
    case Ok(slot) =>
      var was := w.bookings[op.id];
      var conn := OldConn(cfg, was);
      var b := was.(slot := slot, status := if was.status == RescheduleRequested then Confirmed else was.status);
      CancelLeavesOrphan(cfg, w, e, op.id);
      MoveIsCancelThenPlace(cfg, w, op.id, b, conn, op.ref);
      assert b.(connectionId := conn.id) == b;
      PlaceLeavesOrphan(cfg, Step(cfg, w, Cancel(op.id)), e, op.id, b, conn, op.ref);
  }

  lemma {:induction false} OrphanForGood(cfg: Config, w: World, ops: seq<Op>, e: Event)
    requires cfg.Valid() && Orphan(cfg, w, e) && FreshRefs(cfg, w, ops)
    ensures Orphan(cfg, Run(cfg, w, ops), e)
    decreases |ops|
  {
    if ops != [] {
      OrphanStays(cfg, w, ops[0], e);
      OrphanForGood(cfg, Step(cfg, w, ops[0]), ops[1..], e);
    }
  }

  /** Entering a booking under a fresh reference where it will not be looked up makes an orphan. */
  lemma PlacedAstray(cfg: Config, w: World, id: string, b: Booking, to: Connection, ref: Ref)
    requires (forall i, e | i != id && Holds(cfg, w, i, e) :: e in w.own) && Event(to.Diary(), ref) !in w.own
    requires to.Diary().name != "primary" && OldConn(cfg, b).Diary() != to.Diary()
    ensures Orphan(cfg, Place(w, id, b, to, ref), Event(to.Diary(), ref))
  {
    var v, e := Place(w, id, b, to, ref), Event(to.Diary(), ref);
    forall i
      ensures !Holds(cfg, v, i, e)
    {
      assert i != id && Holds(cfg, v, i, e) ==> Holds(cfg, w, i, e);
    }
  }

  lemma AstrayIsOrphan(cfg: Config, w: World, gap: int, op: Op)
    requires cfg.Valid() && Inv(cfg, w, gap) && !FoundAgain(cfg, w, op)
    requires Created(cfg, w, op).Some? ==> Created(cfg, w, op).value !in w.own
    ensures Created(cfg, w, op).Some? && Orphan(cfg, Step(cfg, w, op), Created(cfg, w, op).value)
  {
    HeldIsEntered(cfg, w);
    match op
    case Book(id, req, taker, ref) =>
      var r := cfg.team[taker.value];
      var to := Taker(cfg, w, req, Some(r)).value;
      var b := NewBooking(cfg, req, Some(r), to);
      LookedUpThereOrByDefault(cfg, r, cfg.conns[req.conn], b);
      PlacedAstray(cfg, w, id, b, to, ref);
    case Reassign(id, rid, ref) => ReassignedAstray(cfg, w, gap, op, ReassignTo(cfg, w, id, rid).value);
    case _ =>
  }

  lemma ReassignedAstray(cfg: Config, w: World, gap: int, op: Op, to: Connection)
    requires cfg.Valid() && Inv(cfg, w, gap) && op.Reassign? && ReassignTo(cfg, w, op.id, op.rid) == Ok(to)
    requires !cfg.Traced(cfg.team[op.rid], cfg.primary) && Event(to.Diary(), op.ref) !in w.own
    ensures Orphan(cfg, Step(cfg, w, op), Event(to.Diary(), op.ref))
  {
    var b := w.bookings[op.id].(resourceId := Some(op.rid));
    LookedUpThereOrByDefault(cfg, cfg.team[op.rid], cfg.primary, b.(connectionId := to.id));
    CancelKeeps(cfg, w, gap, op.id);
    HeldIsEntered(cfg, Step(cfg, w, Cancel(op.id)));
    MoveIsCancelThenPlace(cfg, w, op.id, b, to, op.ref);
    PlacedAstray(cfg, Step(cfg, w, Cancel(op.id)), op.id, b.(connectionId := to.id), to, op.ref);
  }

  /**
   Runs of bookings, reassignments, moves, cancellations and the owners' own diary edits keep
   appointments sharing a diary apart, by any gap that every connection's buffer covers, and the
   entries we created exactly the slots of the live bookings.  They do so if each booking for a member
   is looked up where it went, and only then: one lookup gone astray is never made good.
   */
  lemma {:induction false} NeverDoubleBooked(cfg: Config, w: World, gap: int, ops: seq<Op>)
    requires cfg.Valid() && GapWithinBuffers(cfg, gap) && Inv(cfg, w, gap) && FreshRefs(cfg, w, ops)
    ensures Inv(cfg, Run(cfg, w, ops), gap) <==> AlwaysFoundAgain(cfg, w, ops)
    decreases |ops|
  {
    if ops != [] {
      var op, w' := ops[0], Step(cfg, w, ops[0]);
      StepKeeps(cfg, w, gap, op);
      if FoundAgain(cfg, w, op) {
        NeverDoubleBooked(cfg, w', gap, ops[1..]);
      } else {
        var e := Created(cfg, w, op).value;
        AstrayIsOrphan(cfg, w, gap, op);
        OrphanForGood(cfg, w', ops[1..], e);
        OrphanBreaks(cfg, Run(cfg, w, ops), gap, e);
      }
    }
  }

  /** A set-up in which every booking is looked up where it went. */
  ghost predicate EveryoneTraced(cfg: Config) {
    forall k, c | k in cfg.team && c in cfg.conns && (cfg.conns[c].bookable || c == cfg.primary.id)
                  && cfg.ConnFor(cfg.team[k], cfg.conns[c]).Some? :: cfg.Traced(cfg.team[k], cfg.conns[c])
  }

  lemma {:induction false} TracedSetUp(cfg: Config, w: World, ops: seq<Op>)
    requires cfg.Valid() && EveryoneTraced(cfg)
    ensures AlwaysFoundAgain(cfg, w, ops)
    decreases |ops|
  {
    if ops != [] {
      TracedSetUp(cfg, Step(cfg, w, ops[0]), ops[1..]);
    }
  }

  lemma OwnerEditKeeps(cfg: Config, w: World, w': World, gap: int)
    requires Inv(cfg, w, gap) && w'.bookings == w.bookings && w'.own == w.own
    ensures Inv(cfg, w', gap)
  {
    assert forall i, e :: Holds(cfg, w', i, e) <==> Holds(cfg, w, i, e);
  }

  /** In terms of bookings: two live bookings found in one diary do not come within `gap`. */
  lemma LiveBookingsApart(cfg: Config, w: World, gap: int, i: string, j: string)
    requires Inv(cfg, w, gap) && i != j
    requires i in w.bookings && w.bookings[i].Live() && j in w.bookings && w.bookings[j].Live()
    requires OldConn(cfg, w.bookings[i]).Diary() == OldConn(cfg, w.bookings[j]).Diary()
    ensures Apart(w.bookings[i].slot, w.bookings[j].slot, gap)
  {
    assert Holds(cfg, w, i, EventOf(cfg, w.bookings[i]));
    assert Holds(cfg, w, j, EventOf(cfg, w.bookings[j]));
  }

  // -- a member booked twice over ----------------------------------------------------------------

  const TEAM_CALENDAR := Connection("c", "acct", "team", true, RuleFields(0, 0, 30, true, 30, 0), map[])
  const MEMBER := Resource("m", None, "", None, true)
  const SHARED := Config(TEAM_CALENDAR, map["c" := TEAM_CALENDAR], map["m" := MEMBER])

  function AskAt(start: int): Request {
    Request("c", start, None, None, 0, AROUND_THE_CLOCK)
  }

  function HalfHour(start: int): Slot {
    Slot(start, start + 30 * MINUTE)
  }

  function Made(start: int, ref: Ref): Booking {
    Booking("c", Some("m"), None, HalfHour(start), Some(ref), Confirmed, ByCalendar)
  }

  lemma AllowedAt(start: int)
    requires 0 <= start <= 12 * HOUR
    ensures SlotAllowed(Query(TEAM_CALENDAR.rules, AROUND_THE_CLOCK, None, None, 0), start) == None
  {
    DayUnique(0, start);
  }

  /**
   The member's calendar is the team's, but is looked up as the account's default one: booked for nine,
   moved to ten, and booked again at ten, the member has two appointments at once.
   */
  lemma BookedTwice()
    ensures var ops := [Book("a", AskAt(9 * HOUR), Some("m"), 1),
                        Reschedule("a", 10 * HOUR, 0, AROUND_THE_CLOCK, 2),
                        Book("b", AskAt(10 * HOUR), Some("m"), 3)];
      var w := Run(SHARED, World(map[], map[], map[]), ops);
      && SHARED.Valid() && FreshRefs(SHARED, World(map[], map[], map[]), ops)
      && w.bookings == map["a" := Made(10 * HOUR, 2), "b" := Made(10 * HOUR, 3)]
  {
    var w0 := World(map[], map[], map[]);
    var first := Book("a", AskAt(9 * HOUR), Some("m"), 1);
    var move := Reschedule("a", 10 * HOUR, 0, AROUND_THE_CLOCK, 2);
    var second := Book("b", AskAt(10 * HOUR), Some("m"), 3);
    var w1 := BookedFirst();
    var w2 := MovedAway(w1);
    var w3 := BookedSecond(w2);
    var ops := [first, move, second];
    assert ops[1..] == [move, second] && ops[1..][1..] == [second] && ops[1..][1..][1..] == [];
    assert Run(SHARED, w2, [second]) == Run(SHARED, w3, [second][1..]) == w3;
    assert Run(SHARED, w1, [move, second]) == Run(SHARED, w2, [move, second][1..]);
    assert FreshRefs(SHARED, w3, [second][1..]) && FreshRefs(SHARED, w2, [second]);
    assert FreshRefs(SHARED, w1, [move, second]);
  }

  const TEAM := Calendar("acct", "team")
  const DEFAULT := Calendar("acct", "primary")

  lemma BookedFirst() returns (w: World)
    ensures var w0 := World(map[], map[], map[]); var op := Book("a", AskAt(9 * HOUR), Some("m"), 1);
      w == Step(SHARED, w0, op) && (Created(SHARED, w0, op).Some? ==> Created(SHARED, w0, op).value !in w0.own)
    ensures w == World(map["a" := Made(9 * HOUR, 1)], map[Event(TEAM, 1) := HalfHour(9 * HOUR)], map[])
  {
    AllowedAt(9 * HOUR);
    w := Step(SHARED, World(map[], map[], map[]), Book("a", AskAt(9 * HOUR), Some("m"), 1));
  }

  lemma MovedAway(w: World) returns (v: World)
    requires w == World(map["a" := Made(9 * HOUR, 1)], map[Event(TEAM, 1) := HalfHour(9 * HOUR)], map[])
    ensures var op := Reschedule("a", 10 * HOUR, 0, AROUND_THE_CLOCK, 2);
      v == Step(SHARED, w, op) && (Created(SHARED, w, op).Some? ==> Created(SHARED, w, op).value !in w.own)
    ensures v == World(map["a" := Made(10 * HOUR, 2)],
                       map[Event(TEAM, 1) := HalfHour(9 * HOUR), Event(DEFAULT, 2) := HalfHour(10 * HOUR)], map[])
  {
    AllowedAt(10 * HOUR);
    v := Step(SHARED, w, Reschedule("a", 10 * HOUR, 0, AROUND_THE_CLOCK, 2));
  }

  lemma BookedSecond(w: World) returns (v: World)
    requires w == World(map["a" := Made(10 * HOUR, 2)],
                        map[Event(TEAM, 1) := HalfHour(9 * HOUR), Event(DEFAULT, 2) := HalfHour(10 * HOUR)], map[])
    ensures var op := Book("b", AskAt(10 * HOUR), Some("m"), 3);
      v == Step(SHARED, w, op) && (Created(SHARED, w, op).Some? ==> Created(SHARED, w, op).value !in w.own)
    ensures v.bookings == map["a" := Made(10 * HOUR, 2), "b" := Made(10 * HOUR, 3)]
  {
    AllowedAt(10 * HOUR);
    v := Step(SHARED, w, Book("b", AskAt(10 * HOUR), Some("m"), 3));
  }

  // -- what was offered can be booked -----------------------------------------------------------

  /** A member of the offer stands for `r` when both look into the same diary. */
  ghost predicate StandsFor(cfg: Config, w: World, m: Availability.Member, r: Resource, conn: Connection) {
    && m.hours == r.hours && (m.reachable <==> cfg.ConnFor(r, conn).Some?)
    && (m.reachable ==>
          forall s :: s in m.diary <==> w.Entered(cfg.ConnFor(r, conn).value.Diary(), s))
  }

  /** The offer's check on a member and the one made at booking time agree. */
  lemma TakerIsCanTake(cfg: Config, w: World, m: Availability.Member, r: Resource, req: Request)
    requires req.conn in cfg.conns && cfg.conns[req.conn].bookable && !cfg.conns[req.conn].Unknown(req.service)
    requires StandsFor(cfg, w, m, r, cfg.conns[req.conn])
    ensures m.CanTake(req.Ask(cfg.conns[req.conn], None), req.start) <==> Taker(cfg, w, req, Some(r)).Ok?
  {
    var conn := cfg.conns[req.conn];
    var q := req.Ask(conn, None);
    assert m.Ask(q) == req.Ask(conn, r.hours);
    if m.reachable {
      var cal, padded := cfg.ConnFor(r, conn).value.Diary(), q.SlotAt(req.start).Padded(q.Pad());
      Availability.FreeSeesWholeDiary(m.diary, q.SlotAt(req.start), q.Pad());
      FreeSeesEntries(w, cal, q.SlotAt(req.start), q.Pad());
      assert Clear(m.diary, padded) <==> forall s | s in m.diary :: !padded.Overlaps(s);
    }
  }

  lemma FreeSeesEntries(w: World, cal: Calendar, slot: Slot, pad: int)
    ensures w.Free(cal, slot, pad) <==> forall s | w.Entered(cal, s) :: !slot.Padded(pad).Overlaps(s)
  {
    forall s | w.Entered(cal, s) && slot.Padded(pad).Overlaps(s)
      ensures s in w.Busy(cal, slot.Padded(pad))
    {
    }
  }

  /** A start offered for the team, its padding within the range asked about, can then be booked. */
  lemma OfferedIsBookable(cfg: Config, w: World, req: Request, team: seq<Resource>, pool: seq<Availability.Member>,
                          start: int, end: int)
    requires req.conn in cfg.conns && cfg.conns[req.conn].bookable && !cfg.conns[req.conn].Unknown(req.service)
    requires |team| == |pool| && forall i | 0 <= i < |pool| :: StandsFor(cfg, w, pool[i], team[i], cfg.conns[req.conn])
    requires var q := req.Ask(cfg.conns[req.conn], None);
      && req.start in Availability.TeamStarts(pool, q, start, end)
      && start <= req.start - q.Pad() && req.start + q.Length() + q.Pad() <= end
    ensures exists r | r in team :: Taker(cfg, w, req, Some(r)).Ok?
  {
    var q := req.Ask(cfg.conns[req.conn], None);
    Availability.OfferedStartHasATaker(pool, q, start, end, req.start);
    var i :| 0 <= i < |pool| && pool[i].CanTake(q, req.start);
    TakerIsCanTake(cfg, w, pool[i], team[i], req);
    assert team[i] in team;
  }

  /**
   Moving checks opening hours with the service's (or default) length, not the booking's own.  The
   moved appointment is sure to end by closing time exactly when it is no longer than that (or the
   notice period outlasts the horizon, so that nothing can be booked at all).
   */
  lemma RescheduledWithinHours(rules: Rules, service: Option<Service>, length: int)
    requires !Query(rules, AROUND_THE_CLOCK, service, None, 0).AnyTime()
    ensures (forall hours: Schedule, now: int, start: int |
               SlotAllowed(Query(rules, hours, service, None, now), start) == None ::
               EndsByClose(hours, start, length))
            <==> length <= Query(rules, AROUND_THE_CLOCK, service, None, 0).Length()
                 || rules.minNoticeMinutes * MINUTE > rules.maxDaysAhead * DAY
  {
    if length > Query(rules, AROUND_THE_CLOCK, service, None, 0).Length()
       && rules.minNoticeMinutes * MINUTE <= rules.maxDaysAhead * DAY {
      var hours, now := OverrunsClose(rules, service, length);
      assert !EndsByClose(hours, 0, length);
    }
  }

  ghost predicate EndsByClose(hours: Schedule, start: int, length: int) {
    var w := DayWindow(hours, DayOf(start));
    w.Some? && start + length <= w.value.close
  }

  /** A short Monday whose only appointment fills it. */
  lemma OverrunsClose(rules: Rules, service: Option<Service>, length: int) returns (hours: Schedule, now: int)
    requires !Query(rules, AROUND_THE_CLOCK, service, None, 0).AnyTime()
    requires length > Query(rules, AROUND_THE_CLOCK, service, None, 0).Length()
    requires rules.minNoticeMinutes * MINUTE <= rules.maxDaysAhead * DAY
    ensures SlotAllowed(Query(rules, hours, service, None, now), 0) == None
    ensures !EndsByClose(hours, 0, length)
  {
    var checked := Query(rules, AROUND_THE_CLOCK, service, None, 0).Length();
    DefaultLengthWithinDay(rules, service);
    hours := Schedule(map[0 := DayHours(0, checked)], false, []);
    now := -rules.minNoticeMinutes * MINUTE;
    MidnightWindow(hours, checked);
  }

  lemma DefaultLengthWithinDay(rules: Rules, service: Option<Service>)
    ensures 0 < Query(rules, AROUND_THE_CLOCK, service, None, 0).Length() < DAY
  {
  }

  lemma MidnightWindow(hours: Schedule, close: TimeOfDay)
    requires 0 < close && hours == Schedule(map[0 := DayHours(0, close)], false, [])
    ensures DayOf(0) == 0 && DayWindow(hours, 0) == Some(Window(0, close))
    ensures forall grid | 0 <= grid :: Align(0, grid) == 0
  {
  }

  // -- the service -----------------------------------------------------------------------------

  datatype Candidate = Candidate(resource: Resource, conn: Connection)

  /** Those of the pool on one side of the caller's area, in order. */
  function Keep(pool: seq<Resource>, covering: set<string>, covers: bool): seq<Resource> {
    if pool == [] then []
    else (if (pool[0].id in covering) == covers then [pool[0]] else []) + Keep(pool[1..], covering, covers)
  }

  lemma {:induction false} KeepMembers(pool: seq<Resource>, covering: set<string>, covers: bool)
    ensures forall p :: p in Keep(pool, covering, covers) <==> p in pool && (p.id in covering) == covers
  {
    if pool != [] {
      KeepMembers(pool[1..], covering, covers);
      assert pool == [pool[0]] + pool[1..];
    }
  }

  lemma {:induction false} KeepPartitions(pool: seq<Resource>, covering: set<string>)
    ensures |Keep(pool, covering, true)| + |Keep(pool, covering, false)| == |pool|
    ensures multiset(Keep(pool, covering, true)) + multiset(Keep(pool, covering, false)) == multiset(pool)
  {
    if pool != [] {
      KeepPartitions(pool[1..], covering);
      assert pool == [pool[0]] + pool[1..];
    }
  }

  /** Those kept stay in the pool's order. */
  lemma {:induction false} KeepInOrder(front: seq<Resource>, back: seq<Resource>, covering: set<string>, covers: bool)
    ensures Keep(front + back, covering, covers) == Keep(front, covering, covers) + Keep(back, covering, covers)
  {
    if front == [] {
      assert front + back == back;
    } else {
      var all, rest := front + back, front[1..] + back;
      assert all[0] == front[0] && all[1..] == rest;
      KeepInOrder(front[1..], back, covering, covers);
      var head := if (front[0].id in covering) == covers then [front[0]] else [];
      assert Keep(all, covering, covers) == head + Keep(rest, covering, covers);
    }
  }

  /** The rules turn the member's time down, whatever the diary. */
  predicate TurnedDown(cfg: Config, w: World, req: Request, p: Resource) {
    var t := Taker(cfg, w, req, Some(p));
    t.Err? && t.error.Refused?
  }

  predicate Able(cfg: Config, w: World, req: Request, p: Resource) {
    Taker(cfg, w, req, Some(p)).Ok?
  }

  /**
   Who is left to choose from: everyone able, when no area is known; everyone able who covers the area,
   and nobody else, when there is such a member; and failing that, one member at most.
   */
  ghost predicate Preferred(cfg: Config, w: World, req: Request, pool: seq<Resource>, covering: Option<set<string>>,
                            free: seq<Candidate>) {
    if covering.None? then forall p | p in pool && Able(cfg, w, req, p) :: Among(p, free)
    else if CoveredBy(cfg, w, req, pool, covering.value) then
      && (forall c | c in free :: c.resource.id in covering.value)
      && forall p | p in pool && p.id in covering.value && Able(cfg, w, req, p) :: Among(p, free)
    else |free| <= 1
  }

  /** Somebody who covers the area can take the slot. */
  ghost predicate CoveredBy(cfg: Config, w: World, req: Request, pool: seq<Resource>, covering: set<string>) {
    exists p | p in pool && p.id in covering :: Able(cfg, w, req, p)
  }

  ghost predicate Among(p: Resource, free: seq<Candidate>) {
    exists c | c in free :: c.resource == p
  }

  /** The first `i` members have been asked, of whom the first `near` cover the area. */
  ghost predicate Asked(cfg: Config, w: World, req: Request, ordered: seq<Resource>, near: nat, i: nat, free: seq<Candidate>)
    requires i <= |ordered|
  {
    && near <= |ordered|
    && (forall c | c in free :: c.resource in ordered[..i] && Taker(cfg, w, req, Some(c.resource)) == Ok(c.conn))
    && (forall k | 0 <= k < i && Able(cfg, w, req, ordered[k]) :: Among(ordered[k], free))
    && ((forall c | c in free :: c.resource in ordered[..near])
        || (|free| == 1 && forall k | 0 <= k < near :: !Able(cfg, w, req, ordered[k])))
  }

  lemma AskedNext(cfg: Config, w: World, req: Request, ordered: seq<Resource>, near: nat, i: nat, free: seq<Candidate>,
                  covering: Option<set<string>>)
    requires i < |ordered| && Asked(cfg, w, req, ordered, near, i, free)
    requires near <= i && covering.Some? ==> free == []
    requires covering.None? ==> near == |ordered|
    ensures Able(cfg, w, req, ordered[i]) ==>
      Asked(cfg, w, req, ordered, near, i + 1, free + [Candidate(ordered[i], Taker(cfg, w, req, Some(ordered[i])).value)])
    ensures !Able(cfg, w, req, ordered[i]) ==> Asked(cfg, w, req, ordered, near, i + 1, free)
  {
    assert ordered[..i + 1] == ordered[..i] + [ordered[i]];
    if Able(cfg, w, req, ordered[i]) {
      var c := Candidate(ordered[i], Taker(cfg, w, req, Some(ordered[i])).value);
      var more := free + [c];
      assert c in more;
      forall k | 0 <= k < i + 1 && Able(cfg, w, req, ordered[k])
        ensures Among(ordered[k], more)
      {
        if k < i {
          var d :| d in free && d.resource == ordered[k];
          assert d in more;
        }
      }
      if i < near {
        assert ordered[i] in ordered[..near];
      }
    }
  }

  lemma AskedEnough(cfg: Config, w: World, req: Request, pool: seq<Resource>, ordered: seq<Resource>, near: nat, i: nat,
                    free: seq<Candidate>, covering: Option<set<string>>)
    requires i <= |ordered| && Asked(cfg, w, req, ordered, near, i, free)
    requires forall p :: p in pool <==> p in ordered
    requires covering.Some? ==> forall k | 0 <= k < |ordered| :: k < near <==> ordered[k].id in covering.value
    requires i == |ordered| || (free != [] && covering.Some? && near <= i)
    ensures Preferred(cfg, w, req, pool, covering, free)
    ensures free == [] ==> forall p | p in pool :: !Able(cfg, w, req, p)
  {
    if covering.Some? && free != [] && free[0].resource in ordered[..near] {
      assert free[0] in free && free[0].resource in pool && Able(cfg, w, req, free[0].resource);
    }
    if i < |ordered| {
      assert free[0] in free;
    }
  }

  ghost predicate SameMembers(pool: seq<Resource>, all: seq<Resource>) {
    |all| == |pool| && forall p :: p in pool <==> p in all
  }

  /** `reasons` are those given by members asked so far whom the rules turn down. */
  ghost predicate Reasoned(cfg: Config, w: World, req: Request, asked: seq<Resource>, reasons: seq<Refusal>) {
    && |reasons| <= |asked|
    && (|reasons| == |asked| <==> forall p | p in asked :: TurnedDown(cfg, w, req, p))
    && forall why | why in reasons :: exists p | p in asked :: Taker(cfg, w, req, Some(p)) == Err(Refused(why))
  }

  lemma ReasonedNext(cfg: Config, w: World, req: Request, asked: seq<Resource>, p: Resource, reasons: seq<Refusal>)
    requires Reasoned(cfg, w, req, asked, reasons)
    ensures Reasoned(cfg, w, req, asked + [p],
                     if TurnedDown(cfg, w, req, p) then reasons + [Taker(cfg, w, req, Some(p)).error.why] else reasons)
  {
    var all := asked + [p];
    assert p in all && forall r :: r in all <==> r in asked || r == p;
    var more := if TurnedDown(cfg, w, req, p) then reasons + [Taker(cfg, w, req, Some(p)).error.why] else reasons;
    forall why | why in more
      ensures exists r | r in all :: Taker(cfg, w, req, Some(r)) == Err(Refused(why))
    {
      if why in reasons {
        var r :| r in asked && Taker(cfg, w, req, Some(r)) == Err(Refused(why));
        assert r in all;
      } else {
        assert Taker(cfg, w, req, Some(p)) == Err(Refused(why));
      }
    }
  }

  class CalendarService {
    const cfg: Config
    var bookings: map<string, Booking>
    var own: map<Event, Slot>
    var others: map<Calendar, set<Slot>>

    constructor (cfg: Config, others: map<Calendar, set<Slot>>)
      ensures this.cfg == cfg && State() == World(map[], map[], others)
      ensures forall gap :: Inv(cfg, State(), gap)
    {
      this.cfg := cfg;
      this.others := others;
      bookings, own := map[], map[];
    }

    function State(): World
      reads this
    {
      World(bookings, own, others)
    }

    predicate Free(cal: Calendar, slot: Slot, pad: int)
      reads this
    {
      State().Free(cal, slot, pad)
    }

    /** The provider adds an entry and answers with its reference. */
    method CreateEvent(id: string, b: Booking, to: Connection, ref: Ref) returns (saved: Booking)
      modifies this
      ensures State() == Place(old(State()), id, b, to, ref)
      ensures saved == b.(ref := Some(ref))
    {
      own := own[Event(to.Diary(), ref) := b.slot];
      saved := b.(ref := Some(ref));
      bookings := bookings[id := saved];
    }

    method DeleteEvent(from: Connection, ref: Option<Ref>)
      modifies `own
      ensures own == if ref.Some? then old(own) - {Event(from.Diary(), ref.value)} else old(own)
    {
      if ref.Some? {
        own := own - {Event(from.Diary(), ref.value)};
      }
    }

    /** The checks on one member of the pool. */
    method TryMember(req: Request, r: Resource) returns (verdict: Result<Connection, Error>)
      requires req.conn in cfg.conns && cfg.conns[req.conn].bookable && !cfg.conns[req.conn].Unknown(req.service)
      ensures verdict == Taker(cfg, State(), req, Some(r))
    {
      var conn := cfg.conns[req.conn];
      var to := cfg.ConnFor(r, conn);
      if to.None? {
        return Err(NoCalendar);
      }
      var q := req.Ask(conn, r.hours);
      var why := SlotAllowed(q, req.start);
      if why.Some? {
        return Err(Refused(why.value));
      }
      if !Free(to.value.Diary(), q.SlotAt(req.start), conn.Pad()) {
        return Err(SlotTaken);
      }
      return Ok(to.value);
    }

    /**
     Tries the pool in order.  Once somebody who covers the area is free, members outside it are
     not asked; but while nobody is free everyone is asked.
     */
    method FindTakers(req: Request, pool: seq<Resource>, covering: Option<set<string>>)
      returns (free: seq<Candidate>, reasons: seq<Refusal>)
      requires req.conn in cfg.conns && cfg.conns[req.conn].bookable && !cfg.conns[req.conn].Unknown(req.service)
      ensures forall c | c in free :: c.resource in pool && Taker(cfg, State(), req, Some(c.resource)) == Ok(c.conn)
      ensures free == [] ==> forall p | p in pool :: Taker(cfg, State(), req, Some(p)).Err?
      ensures Preferred(cfg, State(), req, pool, covering, free)
      ensures free == [] ==> exists all | SameMembers(pool, all) :: Reasoned(cfg, State(), req, all, reasons)
    {
      var ordered;
      ghost var near;
      ordered, near := InOrder(pool, covering);
      free, reasons := [], [];
      var i := 0;
      while i < |ordered| && !(free != [] && covering.Some? && ordered[i].id !in covering.value)
        invariant 0 <= i <= |ordered|
        invariant Asked(cfg, State(), req, ordered, near, i, free)
        invariant free == [] ==> Reasoned(cfg, State(), req, ordered[..i], reasons)
      {
        var r := ordered[i];
        assert ordered[..i + 1] == ordered[..i] + [r];
        AskedNext(cfg, State(), req, ordered, near, i, free, covering);
        if free == [] {
          ReasonedNext(cfg, State(), req, ordered[..i], r, reasons);
        }
        var verdict := TryMember(req, r);
        match verdict {
          case Ok(conn) => free := free + [Candidate(r, conn)];
          case Err(Refused(why)) => reasons := reasons + [why];
          case Err(_) =>
        }
        i := i + 1;
      }
      assert i == |ordered| ==> ordered[..i] == ordered;
      AskedEnough(cfg, State(), req, pool, ordered, near, i, free, covering);
    }

    /** Those who cover the area first, when it is known. */
    method InOrder(pool: seq<Resource>, covering: Option<set<string>>) returns (ordered: seq<Resource>, ghost near: nat)
      ensures SameMembers(pool, ordered)
      ensures covering.None? ==> near == |ordered|
      ensures covering.Some? ==> near <= |ordered| && forall k | 0 <= k < |ordered| :: k < near <==> ordered[k].id in covering.value
    {
      if covering.None? {
        return pool, |pool|;
      }
      var inside, outside := Keep(pool, covering.value, true), Keep(pool, covering.value, false);
      KeepPartitions(pool, covering.value);
      KeepMembers(pool, covering.value, true);
      KeepMembers(pool, covering.value, false);
      ordered, near := inside + outside, |inside|;
      forall k | 0 <= k < |ordered|
        ensures k < near <==> ordered[k].id in covering.value
      {
        assert ordered[k] == if k < near then inside[k] else outside[k - near];
      }
    }

    /**
     Books with one of the free members of the pool (`pick` stands for the tenant's assignment
     policy), or, when the tenant has no team, in the connection's own calendar.
     */
    method Book(id: string, req: Request, team: bool, pool: seq<Resource>, covering: Option<set<string>>,
                pick: nat, ref: Ref) returns (r: Outcome)
      requires id !in bookings
      requires forall p | p in pool :: p.id in cfg.team && cfg.team[p.id] == p
      modifies this
      ensures r.Ok? <==>
        if team then exists p | p in pool :: Taker(cfg, old(State()), req, Some(p)).Ok?
        else Taker(cfg, old(State()), req, None).Ok?
      ensures r.Ok? ==>
        && id in bookings && bookings[id] == r.value
        && exists taker: Option<string> ::
             && (team <==> taker.Some?) && (team ==> exists p | p in pool :: p.id == taker.value)
             && (team && covering.Some? && CoveredBy(cfg, old(State()), req, pool, covering.value) ==>
                   taker.value in covering.value)
             && State() == Step(cfg, old(State()), Op.Book(id, req, taker, ref))
      ensures r.Err? ==> State() == old(State())
      ensures r.Err? && !team ==> Taker(cfg, old(State()), req, None) == Err(r.error)
      ensures r.Err? && (req.conn !in cfg.conns || !cfg.conns[req.conn].bookable) ==> r.error == NoCalendar
      ensures r.Err? && req.conn in cfg.conns && cfg.conns[req.conn].bookable && cfg.conns[req.conn].Unknown(req.service) ==>
        r.error == UnknownService
      ensures r.Err? && team && req.conn in cfg.conns && cfg.conns[req.conn].bookable && !cfg.conns[req.conn].Unknown(req.service) ==>
        if pool == [] then r.error == NobodyDoesThat
        else if forall p | p in pool :: TurnedDown(cfg, old(State()), req, p)
        then exists p | p in pool :: Taker(cfg, old(State()), req, Some(p)) == Err(r.error)
        else r.error == SlotTaken
    {
      if req.conn !in cfg.conns || !cfg.conns[req.conn].bookable {
        return Err(NoCalendar);
      }
      var conn := cfg.conns[req.conn];
      if conn.Unknown(req.service) {
        return Err(UnknownService);
      }
      if !team {
        var q := req.Ask(conn, None);
        var why := SlotAllowed(q, req.start);
        if why.Some? {
          return Err(Refused(why.value));
        }
        if !Free(conn.Diary(), q.SlotAt(req.start), conn.Pad()) {
          return Err(SlotTaken);
        }
        var b := CreateEvent(id, NewBooking(cfg, req, None, conn), conn, ref);
        assert State() == Step(cfg, old(State()), Op.Book(id, req, None, ref));
        return Ok(b);
      }
      if pool == [] {
        return Err(NobodyDoesThat);
      }
      var free, reasons := FindTakers(req, pool, covering);
      if free == [] {
        return Err(if reasons != [] && |reasons| == |pool| then Refused(reasons[0]) else SlotTaken);
      }
      var chosen := free[pick % |free|];
      assert chosen in free && chosen.resource in pool;
      var b := CreateEvent(id, NewBooking(cfg, req, Some(chosen.resource), chosen.conn), chosen.conn, ref);
      assert State() == Step(cfg, old(State()), Op.Book(id, req, Some(chosen.resource.id), ref));
      return Ok(b);
    }

    method Reassign(id: string, rid: string, ref: Ref) returns (r: Outcome)
      modifies this
      ensures State() == Step(cfg, old(State()), Op.Reassign(id, rid, ref))
      ensures r.Ok? <==> ReassignTo(cfg, old(State()), id, rid).Ok?
      ensures r.Err? ==> ReassignTo(cfg, old(State()), id, rid) == Err(r.error)
      ensures r.Ok? ==> id in bookings && bookings[id] == r.value
    {
      if id !in bookings {
        return Err(NotFound);
      }
      var b := bookings[id];
      if b.status == Cancelled {
        return Err(AlreadyCancelled);
      }
      if b.source == ByScheduler {
        return Err(Managed);
      }
      if rid !in cfg.team || !cfg.team[rid].active {
        return Err(NoResource);
      }
      var from, to := OldConn(cfg, b), cfg.ConnFor(cfg.team[rid], cfg.primary);
      if to.None? {
        return Err(NoCalendar);
      }
      if !Free(to.value.Diary(), b.slot, cfg.primary.Pad()) {
        return Err(SlotTaken);
      }
      DeleteEvent(from, b.ref);
      var saved := CreateEvent(id, b.(resourceId := Some(rid), connectionId := to.value.id), to.value, ref);
      return Ok(saved);
    }

    method Reschedule(id: string, start: int, now: int, hours: Schedule, ref: Ref) returns (r: Outcome)
      modifies this
      ensures State() == Step(cfg, old(State()), Op.Reschedule(id, start, now, hours, ref))
      ensures r.Ok? <==> RescheduleTo(cfg, old(State()), id, start, now, hours).Ok?
      ensures r.Err? ==> RescheduleTo(cfg, old(State()), id, start, now, hours) == Err(r.error)
      ensures r.Ok? ==> id in bookings && bookings[id] == r.value
    {
      if id !in bookings {
        return Err(NotFound);
      }
      var b := bookings[id];
      if b.status == Cancelled {
        return Err(AlreadyCancelled);
      }
      if b.source == ByScheduler {
        return Err(Managed);
      }
      var found := cfg.BookingConn(b);
      if found.None? {
        return Err(NoCalendar);
      }
      var service, open := cfg.primary.ServiceOf(b.service), hours;
      if b.resourceId.Some? && b.resourceId.value in cfg.team && cfg.team[b.resourceId.value].hours.Some? {
        open := cfg.team[b.resourceId.value].hours.value;
      }
      var why := SlotAllowed(Query(cfg.primary.rules, open, service, None, now), start);
      if why.Some? {
        return Err(Refused(why.value));
      }
      var moved := Slot(start, start + (b.slot.end - b.slot.start));
      var w := State();
      if !w.FreeExcept(found.value.Diary(), moved, cfg.primary.Pad(), b.slot) {
        return Err(SlotTaken);
      }
      DeleteEvent(found.value, b.ref);
      b := b.(slot := moved, connectionId := found.value.id,
              status := if b.status == RescheduleRequested then Confirmed else b.status);
      var saved := CreateEvent(id, b, found.value, ref);
      return Ok(saved);
    }

    /** Cancelling twice is allowed and changes nothing. */
    method Cancel(id: string) returns (r: Outcome)
      modifies this
      ensures State() == Step(cfg, old(State()), Op.Cancel(id))
      ensures r.Ok? <==> id in old(bookings) && (old(bookings[id]).status == Cancelled || old(bookings[id]).Live())
      ensures r.Ok? ==> id in bookings && bookings[id] == r.value && r.value.status == Cancelled
    {
      if id !in bookings {
        return Err(NotFound);
      }
      var b := bookings[id];
      if b.status == Cancelled {
        return Ok(b);
      }
      if b.source == ByScheduler {
        return Err(Managed);
      }
      DeleteEvent(OldConn(cfg, b), b.ref);
      b := b.(status := Cancelled);
      bookings := bookings[id := b];
      return Ok(b);
    }
  }
}
