/** What a booking, a move or a cancellation does, told without the functions that do it (apps/api/parlio_api/calendar.py). */
module BookingEffects {
  import opened Wrappers
  import opened Clock
  import opened Opening
  import opened FreeSlots
  import opened Bookings
  import Availability

  /** Every other booking stays, and so does what owners entered themselves. */
  ghost predicate OnlyTouches(w: World, v: World, id: string) {
    && v.others == w.others
    && (forall i | i != id :: i in v.bookings <==> i in w.bookings)
    && (forall i | i != id && i in w.bookings :: v.bookings[i] == w.bookings[i])
  }

  // -- where, and when -----------------------------------------------------------------------------

  /** A member names no connection of its own, or the one it would use anyway. */
  ghost predicate UsesDefault(r: Resource, default: Connection) {
    r.connectionId == None || r.connectionId == Some("") || r.connectionId == Some(default.id)
  }

  /** The member's calendar in the account of its connection, else the connection's, else the account's default one. */
  lemma MembersDiary(cfg: Config, r: Resource, default: Connection)
    ensures cfg.ConnFor(r, default).Some? <==>
      UsesDefault(r, default) || exists c | c in cfg.conns && r.connectionId == Some(c) :: cfg.conns[c].bookable
    ensures forall base | cfg.ConnFor(r, default).Some?
        && base == (if UsesDefault(r, default) then default else cfg.conns[r.connectionId.value]) ::
      var to := cfg.ConnFor(r, default).value;
      && to.id == base.id && to.Diary().account == base.account
      && (r.calendarId != "" ==> to.Diary().name == r.calendarId)
      && (r.calendarId == "" && base.calendarId != "" ==> to.Diary().name == base.calendarId)
      && (r.calendarId == "" && base.calendarId == "" ==> to.Diary().name == "primary")
  {
  }

  /** What is asked of the rules for a request: the connection's rules, the member's hours if it has any, the service named. */
  ghost predicate Asks(cfg: Config, req: Request, r: Option<Resource>, q: Query)
    requires req.conn in cfg.conns
  {
    var conn := cfg.conns[req.conn];
    && q.rules == conn.rules && q.now == req.now && q.duration == req.duration
    && q.hours == (if r.Some? && r.value.hours.Some? then r.value.hours.value else req.hours)
    && (match q.service
        case Some(s) => exists name | req.service == Some(name) && name in conn.services :: name != "" && conn.services[name] == s
        case None => forall name | req.service == Some(name) :: name == "" || name !in conn.services)
  }

  lemma AskedFor(cfg: Config, req: Request, r: Option<Resource>)
    requires req.conn in cfg.conns
    ensures Asks(cfg, req, r, req.Ask(cfg.conns[req.conn], if r.Some? then r.value.hours else None))
  {
  }

  lemma AsksOneThing(cfg: Config, req: Request, r: Option<Resource>, p: Query, q: Query)
    requires req.conn in cfg.conns && Asks(cfg, req, r, p) && Asks(cfg, req, r, q)
    ensures p == q
  {
  }

  /** Nothing in the diary comes within `gap` minutes of the slot. */
  ghost predicate Room(w: World, cal: Calendar, slot: Slot, gap: int) {
    forall s | w.Entered(cal, s) :: s.end <= slot.start - gap * MINUTE || slot.end + gap * MINUTE <= s.start
  }

  lemma FreeIsRoom(w: World, cal: Calendar, slot: Slot, gap: int)
    ensures w.Free(cal, slot, gap * MINUTE) <==> Room(w, cal, slot, gap)
  {
    FreeSeesEntries(w, cal, slot, gap * MINUTE);
  }

  /** The service asked for is in the catalogue, unless there is no catalogue or none is asked for. */
  ghost predicate Offered(conn: Connection, service: Option<string>) {
    conn.services == map[] || forall name | service == Some(name) :: name == "" || name in conn.services
  }

  /** Whom a slot can be booked with: exactly those whose hours and rules allow it, and whose diary has room for it. */
  lemma BookableExactly(cfg: Config, w: World, req: Request, r: Option<Resource>, q: Query, n: int)
    requires req.conn in cfg.conns ==> Asks(cfg, req, r, q) && Availability.Takes(q, n)
    ensures Taker(cfg, w, req, r).Ok? <==>
      && req.conn in cfg.conns && cfg.conns[req.conn].bookable && Offered(cfg.conns[req.conn], req.service)
      && (var conn := cfg.conns[req.conn];
          var to := if r.Some? then cfg.ConnFor(r.value, conn) else Some(conn);
          && to.Some? && SlotAllowed(q, req.start) == None
          && Room(w, to.value.Diary(), Slot(req.start, req.start + n * MINUTE), conn.rules.bufferMinutes))
  {
    if req.conn in cfg.conns {
      var conn := cfg.conns[req.conn];
      AskedFor(cfg, req, r);
      AsksOneThing(cfg, req, r, q, req.Ask(conn, if r.Some? then r.value.hours else None));
      var to := if r.Some? then cfg.ConnFor(r.value, conn) else Some(conn);
      if to.Some? {
        FreeIsRoom(w, to.value.Diary(), Slot(req.start, req.start + n * MINUTE), conn.rules.bufferMinutes);
      }
    }
  }

  /** The reason why a slot cannot be booked is a true one. */
  lemma NotBookableForAReason(cfg: Config, w: World, req: Request, r: Option<Resource>, q: Query, n: int)
    requires req.conn in cfg.conns ==> Asks(cfg, req, r, q) && Availability.Takes(q, n)
    requires Taker(cfg, w, req, r).Err?
    ensures var why := Taker(cfg, w, req, r).error;
      if req.conn !in cfg.conns || !cfg.conns[req.conn].bookable then why == NoCalendar
      else
        var conn := cfg.conns[req.conn];
        if !Offered(conn, req.service) then why == UnknownService
        else if r.Some? && cfg.ConnFor(r.value, conn).None? then why == NoCalendar
        else if SlotAllowed(q, req.start).Some? then why == Refused(SlotAllowed(q, req.start).value)
        else why == SlotTaken
  {
    if req.conn in cfg.conns {
      AskedFor(cfg, req, r);
      AsksOneThing(cfg, req, r, q, req.Ask(cfg.conns[req.conn], if r.Some? then r.value.hours else None));
    }
  }

  // -- what the operations do ----------------------------------------------------------------------

  /** A booking that goes ahead is made as asked: for that time and that long, with that member, in that diary. */
  lemma BookedAsAsked(cfg: Config, w: World, id: string, req: Request, taker: Option<string>, ref: Ref, to: Connection, n: int)
    requires id !in w.bookings && (taker.Some? ==> taker.value in cfg.team)
    requires var r := if taker.Some? then Some(cfg.team[taker.value]) else None; Taker(cfg, w, req, r) == Ok(to)
    requires cfg.Valid() && Availability.Takes(req.Ask(cfg.conns[req.conn], None), n)
    ensures var v := Step(cfg, w, Book(id, req, taker, ref));
      && OnlyTouches(w, v, id) && id in v.bookings
      && (var b := v.bookings[id];
          && b.slot == Slot(req.start, req.start + n * MINUTE)
          && b.resourceId == taker && b.connectionId == to.id && b.ref == Some(ref)
          && b.status == Confirmed && b.source == ByCalendar
          && (forall name :: b.service == Some(name) <==>
                req.service == Some(name) && name != "" && name in cfg.conns[req.conn].services)
          && v.own == w.own[Event(to.Diary(), ref) := b.slot])
  {
  }

  /** What may be changed is a booking of ours that is not cancelled. */
  lemma EditableExactly(w: World, id: string)
    ensures Editable(w, id).Ok? <==> id in w.bookings && w.bookings[id].status != Cancelled && w.bookings[id].source == ByCalendar
    ensures Editable(w, id).Ok? ==> Editable(w, id).value == w.bookings[id]
    ensures Editable(w, id) == Err(NotFound) <==> id !in w.bookings
    ensures Editable(w, id) == Err(AlreadyCancelled) <==> id in w.bookings && w.bookings[id].status == Cancelled
    ensures Editable(w, id).Err? ==> Editable(w, id).error in {NotFound, AlreadyCancelled, Managed}
  {
  }

  /** A booking goes to another member exactly when that one is active, can be reached and has room at its time. */
  lemma ReassignableExactly(cfg: Config, w: World, id: string, rid: string)
    ensures ReassignTo(cfg, w, id, rid).Ok? <==>
      && id in w.bookings && w.bookings[id].status != Cancelled && w.bookings[id].source == ByCalendar
      && rid in cfg.team && cfg.team[rid].active
      && (var to := cfg.ConnFor(cfg.team[rid], cfg.primary);
          to.Some? && Room(w, to.value.Diary(), w.bookings[id].slot, cfg.primary.rules.bufferMinutes))
  {
    if id in w.bookings && rid in cfg.team && cfg.ConnFor(cfg.team[rid], cfg.primary).Some? {
      FreeIsRoom(w, cfg.ConnFor(cfg.team[rid], cfg.primary).value.Diary(), w.bookings[id].slot, cfg.primary.rules.bufferMinutes);
    }
  }

  /** The entry `gone`, if any, is deleted, and one for `slot` made. */
  ghost predicate EntryMoves(w: World, v: World, gone: Option<Event>, made: Event, slot: Slot) {
    forall e ::
      && (e in v.own <==> e == made || (e in w.own && Some(e) != gone))
      && (e in v.own ==> v.own[e] == if e == made then slot else w.own[e])
  }

  /** Only the member changes, and the entry goes from one diary to the other. */
  lemma ReassignedAsAsked(cfg: Config, w: World, id: string, rid: string, ref: Ref, to: Connection)
    requires ReassignTo(cfg, w, id, rid) == Ok(to)
    ensures var v, b := Step(cfg, w, Reassign(id, rid, ref)), w.bookings[id];
      && OnlyTouches(w, v, id) && id in v.bookings
      && v.bookings[id] == Booking(to.id, Some(rid), b.service, b.slot, Some(ref), b.status, b.source)
      && EntryMoves(w, v, if b.ref.Some? then Some(EventOf(cfg, b)) else None, Event(to.Diary(), ref), b.slot)
  {
  }

  /** A booking keeps its length, its service and its member when it moves, and stands confirmed. */
  lemma RescheduledAsAsked(cfg: Config, w: World, id: string, start: int, now: int, hours: Schedule, ref: Ref)
    requires cfg.Valid() && RescheduleTo(cfg, w, id, start, now, hours).Ok?
    ensures var v, b := Step(cfg, w, Reschedule(id, start, now, hours, ref)), w.bookings[id];
      && OnlyTouches(w, v, id) && id in v.bookings
      && (var c := v.bookings[id];
          && c.slot.start == start && c.slot.end - c.slot.start == b.slot.end - b.slot.start
          && c.service == b.service && c.resourceId == b.resourceId && c.connectionId == b.connectionId
          && c.status == Confirmed && c.source == b.source && c.ref == Some(ref)
          && EntryMoves(w, v, if b.ref.Some? then Some(EventOf(cfg, b)) else None,
                        Event(OldConn(cfg, b).Diary(), ref), c.slot))
  {
  }

  /** The hours a move is held to: those of the booking's member if it has any of its own. */
  ghost predicate HeldTo(cfg: Config, b: Booking, hours: Schedule, q: Query) {
    && q.rules == cfg.primary.rules && q.duration == None
    && (forall name | b.service == Some(name) && name != "" && name in cfg.primary.services ::
          q.service == Some(cfg.primary.services[name]))
    && ((forall name | b.service == Some(name) :: name == "" || name !in cfg.primary.services) ==> q.service == None)
    && (forall m | b.resourceId == Some(m) && m in cfg.team && cfg.team[m].hours.Some? :: q.hours == cfg.team[m].hours.value)
    && ((forall m | b.resourceId == Some(m) && m in cfg.team :: cfg.team[m].hours.None?) ==> q.hours == hours)
  }

  lemma HeldToExists(cfg: Config, b: Booking, now: int, hours: Schedule)
    ensures HeldTo(cfg, b, hours, MoveQuery(cfg, b, now, hours)) && MoveQuery(cfg, b, now, hours).now == now
  {
  }

  /** A booking may move exactly when the rules allow the new start, and the diary has room, its own old time aside. */
  lemma MovableExactly(cfg: Config, w: World, id: string, start: int, now: int, hours: Schedule, q: Query)
    requires id in w.bookings ==> HeldTo(cfg, w.bookings[id], hours, q) && q.now == now
    ensures RescheduleTo(cfg, w, id, start, now, hours).Ok? <==>
      && id in w.bookings && w.bookings[id].status != Cancelled && w.bookings[id].source == ByCalendar
      && w.bookings[id].connectionId in cfg.conns
      && SlotAllowed(q, start) == None
      && (var b, gap := w.bookings[id], cfg.primary.rules.bufferMinutes;
          forall s | w.Entered(OldConn(cfg, b).Diary(), s) && s != b.slot ::
            s.end <= start - gap * MINUTE || start + (b.slot.end - b.slot.start) + gap * MINUTE <= s.start)
  {
    if id in w.bookings {
      var b := w.bookings[id];
      HeldToExists(cfg, b, now, hours);
      assert q == MoveQuery(cfg, b, now, hours);
      var slot := Slot(start, start + (b.slot.end - b.slot.start));
      FreeExceptSeesEntries(w, OldConn(cfg, b).Diary(), slot, cfg.primary.Pad(), b.slot);
    }
  }

  lemma FreeExceptSeesEntries(w: World, cal: Calendar, slot: Slot, pad: int, was: Slot)
    ensures w.FreeExcept(cal, slot, pad, was)
            <==> forall s | w.Entered(cal, s) && s != was :: !slot.Padded(pad).Overlaps(s)
  {
    forall s | w.Entered(cal, s) && s != was && slot.Padded(pad).Overlaps(s)
      ensures s in w.Busy(cal, slot.Padded(pad))
    {
    }
  }

  /** The diary a booking is looked up in later is its member's calendar in the booking's own connection. */
  lemma LookedUpIn(cfg: Config, b: Booking)
    requires b.connectionId in cfg.conns
    ensures var conn, cal := cfg.conns[b.connectionId], OldConn(cfg, b).Diary();
      && cal.account == conn.account
      && (forall m | b.resourceId == Some(m) && m in cfg.team ::
            cal.name == if cfg.team[m].calendarId != "" then cfg.team[m].calendarId else "primary")
      && ((forall m | b.resourceId == Some(m) :: m !in cfg.team) ==>
            cal.name == if conn.calendarId != "" then conn.calendarId else "primary")
  {
  }

  /** Cancelling marks the booking, deletes its entry and does nothing else. */
  lemma CancelledAsAsked(cfg: Config, w: World, id: string)
    requires id in w.bookings && w.bookings[id].status != Cancelled && w.bookings[id].source == ByCalendar
    ensures var v, b := Step(cfg, w, Cancel(id)), w.bookings[id];
      && OnlyTouches(w, v, id) && id in v.bookings
      && v.bookings[id] == Booking(b.connectionId, b.resourceId, b.service, b.slot, b.ref, Cancelled, b.source)
      && (forall e :: e in v.own <==> e in w.own && (b.ref.Some? ==> e != EventOf(cfg, b)))
      && (forall e | e in v.own :: v.own[e] == w.own[e])
  {
  }

  /** A change that is refused changes nothing. */
  lemma RefusedChangesNothing(cfg: Config, w: World, id: string)
    ensures forall req, taker, ref | id in w.bookings :: Step(cfg, w, Book(id, req, taker, ref)) == w
    ensures forall rid, ref | ReassignTo(cfg, w, id, rid).Err? :: Step(cfg, w, Reassign(id, rid, ref)) == w
    ensures forall start, now, hours, ref | RescheduleTo(cfg, w, id, start, now, hours).Err? ::
      Step(cfg, w, Reschedule(id, start, now, hours, ref)) == w
    ensures Editable(w, id).Err? ==> Step(cfg, w, Cancel(id)) == w
  {
  }

  /** What owners do to a diary is seen there, and touches nothing of ours. */
  lemma OwnersSeen(cfg: Config, w: World, cal: Calendar, entries: set<Slot>)
    ensures var v := Step(cfg, w, OwnerEdits(cal, entries));
      && v.bookings == w.bookings && v.own == w.own && v.Others(cal) == entries
      && forall other | other != cal :: v.Others(other) == w.Others(other)
  {
  }
}
