/** All conversations together: where a message is filed, and the service that files it (apps/api/parlio_api/inbox.py). */
module InboxService {
  import opened Inbox
  import Ordered
  import opened Wrappers

  type Boxes = map<string, Box>

  predicate OpenFor(b: Box, who: Party) {
    b.thread.Of() == who && b.thread.status != Closed
  }

  /** The most threads of a tenant that one listing shows, and the most of all tenants that a sweep is shown. */
  const LISTING: nat := 2000
  const SWEEP_LISTING: nat := 5000

  datatype Event =
    | Arrive(id: string, who: Party, what: Op, shown: set<string>)
    | Handle(id: string, what: Op)
    | SweepAll(now: int, tickets: map<string, string>, shown: set<string>)

  function TicketFor(id: string, tickets: map<string, string>): Option<string> {
    if id in tickets then Some(tickets[id]) else None
  }

  function BoxAt(x: Boxes, id: string, who: Party): Box {
    if id in x then x[id] else NewBox(who)
  }

  /**
   A message is filed in an open thread of its contact and channel, among those the store shows; only
   failing that, in a new one.
   */
  predicate Legal(x: Boxes, e: Event) {
    match e
    case Arrive(id, who, what, shown) =>
      && (what.Inbound? || what.CallOver?)
      && if id in x then id in shown && OpenFor(x[id], who)
         else forall j | j in x && j in shown :: !OpenFor(x[j], who)
    case Handle(id, what) => id in x && (what.Reply? || what.Jot? || what.Update?)
    case SweepAll(_, _, _) => true
  }

  function Next(x: Boxes, e: Event, sla: int): Boxes {
    match e
    case Arrive(id, who, what, _) => x[id := Step(BoxAt(x, id, who), what, sla)]
    case Handle(id, what) => if id in x then x[id := Step(x[id], what, sla)] else x
    case SweepAll(now, tickets, shown) =>
      map id | id in x :: if id in shown then Swept(x[id], now, TicketFor(id, tickets)) else x[id]
  }

  function RunAll(x: Boxes, events: seq<Event>, sla: int): Boxes
    decreases |events|
  {
    if events == [] then x else RunAll(Next(x, events[0], sla), events[1..], sla)
  }

  /** A thread is open for a contact if it is that tenant's, on that channel, with that identity, and not closed. */
  lemma OpenForExactly(b: Box, who: Party)
    ensures OpenFor(b, who) <==>
      && b.thread.tenant == who.tenant && b.thread.channel == who.channel && b.thread.identity == who.identity
      && (b.thread.status == Open || b.thread.status == Waiting)
  {
  }

  /** What arrives touches its own thread alone, which is a new one if it was not there. */
  lemma ArrivesInOneThread(x: Boxes, id: string, who: Party, what: Op, shown: set<string>, sla: int)
    ensures var y := Next(x, Arrive(id, who, what, shown), sla);
      && id in y && y[id] == Step(if id in x then x[id] else NewBox(who), what, sla)
      && (forall j | j != id :: j in y <==> j in x) && forall j | j != id && j in x :: y[j] == x[j]
  {
  }

  // -- one thread's share of a run ---------------------------------------------------------------

  function Share(id: string, events: seq<Event>): seq<Op> {
    if events == [] then [] else Own(id, events[0]) + Share(id, events[1..])
  }

  function Own(id: string, e: Event): seq<Op> {
    match e
    case SweepAll(now, tickets, shown) => if id in shown then [Sweep(now, TicketFor(id, tickets))] else []
    case Arrive(to, _, what, _) => if to == id then [what] else []
    case Handle(to, what) => if to == id then [what] else []
  }

  lemma OwnStep(x: Boxes, id: string, e: Event, sla: int)
    requires id in x
    ensures id in Next(x, e, sla) && Next(x, e, sla)[id] == Run(x[id], Own(id, e), sla)
  {
    var own := Own(id, e);
    if own != [] {
      assert own == [own[0]] && Next(x, e, sla)[id] == Step(x[id], own[0], sla);
      assert Run(x[id], own, sla) == Run(Step(x[id], own[0], sla), own[1..], sla);
    }
  }

  /** Each thread lives as if alone: what holds over the runs of one thread holds of all of them. */
  lemma {:induction false} ThreadRunsAlone(x: Boxes, id: string, events: seq<Event>, sla: int)
    requires id in x
    ensures id in RunAll(x, events, sla)
    ensures RunAll(x, events, sla)[id] == Run(x[id], Share(id, events), sla)
    decreases |events|
  {
    if events != [] {
      OwnStep(x, id, events[0], sla);
      ThreadRunsAlone(Next(x, events[0], sla), id, events[1..], sla);
      RunThen(x[id], Own(id, events[0]), Share(id, events[1..]), sla);
    }
  }

  /** Over every run of the whole inbox the summary of every thread is that of its messages. */
  lemma {:induction false} EverySummaryAgrees(x: Boxes, events: seq<Event>, sla: int)
    requires forall id | id in x :: Agrees(x[id])
    ensures forall id | id in RunAll(x, events, sla) :: Agrees(RunAll(x, events, sla)[id])
    decreases |events|
  {
    if events != [] {
      var next := Next(x, events[0], sla);
      forall id | id in next
        ensures Agrees(next[id])
      {
        match events[0]
        case SweepAll(now, tickets, shown) => SweepAgrees(x[id], now, TicketFor(id, tickets));
        case Arrive(to, who, what, _) =>
          if to == id {
            StepAgrees(BoxAt(x, id, who), what, sla);
          }
        case Handle(to, what) =>
          if to == id {
            StepAgrees(x[id], what, sla);
          }
      }
      EverySummaryAgrees(next, events[1..], sla);
    }
  }

  // -- one open thread for a contact and channel --------------------------------------------------

  ghost predicate OneOpen(x: Boxes) {
    forall i, j | i in x && j in x && OpenFor(x[i], x[j].thread.Of())
                  && x[j].thread.status != Closed :: i == j
  }

  /** A closed thread is opened by hand while its contact already has another open one. */
  ghost predicate Revives(x: Boxes, e: Event) {
    && e.Handle? && e.id in x && x[e.id].thread.status == Closed
    && (e.what.Reply? || (e.what.Update? && e.what.change.status.Some? && e.what.change.status.value != Closed))
    && exists j | j in x :: OpenFor(x[j], x[e.id].thread.Of())
  }

  /** A new thread is opened although the contact has an open one that the store does not show. */
  ghost predicate Overlooks(x: Boxes, e: Event) {
    e.Arrive? && e.id !in x && exists j | j in x :: OpenFor(x[j], e.who)
  }

  predicate SamePlace(t: Thread, u: Thread) {
    t.Of() == u.Of()
  }

  lemma AnnouncedKeepsPlace(b: Box, text: string, at: int)
    ensures SamePlace(Announced(b, text, at).thread, b.thread) && Announced(b, text, at).thread.status == b.thread.status
  {
  }

  lemma AnswerKeepsPlace(b: Box, inb: Incoming, sla: int)
    requires b.thread.status != Closed
    ensures SamePlace(Answered(b, inb, sla).thread, b.thread) && Answered(b, inb, sla).thread.status != Closed
  {
    if Consults(b.thread, inb) {
      assert SamePlace(Spoken(b, inb).thread, b.thread);
      var called := CalledIn(Spoken(b, inb), inb.turn, inb.at + sla);
      assert SamePlace(called.thread, b.thread);
      AnnouncedKeepsPlace(called, HandoffLine(inb.turn.department), inb.at);
    }
  }

  lemma StepKeepsPlace(b: Box, op: Op, sla: int)
    ensures SamePlace(Step(b, op, sla).thread, b.thread)
    ensures op.Inbound? ==> Step(b, op, sla).thread.status != Closed
  {
    match op
    case Inbound(inb) => AnswerKeepsPlace(Received(b, inb, sla), inb, sla);
    case Reply(who, shownAs, seen, text, at) => ReplyKeepsPlace(b, who, shownAs, seen, text, at);
    case Update(change, at) => AnnouncedKeepsPlace(b, CLOSING_LINE, at);
    case Sweep(now, ticket) => SweptKeepsPlace(b, now, ticket);
    case _ =>
  }

  lemma ReplyKeepsPlace(b: Box, who: string, shownAs: string, seen: nat, text: string, at: int)
    ensures var t := Replied(b, who, shownAs, seen, text, at).thread; SamePlace(t, b.thread) && t.status == Open
  {
  }

  lemma SweptKeepsPlace(b: Box, now: int, ticket: Option<string>)
    ensures SamePlace(Swept(b, now, ticket).thread, b.thread) && Swept(b, now, ticket).thread.status == b.thread.status
  {
    if ticket.Some? {
      var late := b.(thread := b.thread.(breached := true));
      var logged := late.(thread := late.thread.(callback := ticket), callbacks := late.callbacks + 1);
      AnnouncedKeepsPlace(logged, CallbackLine(ticket.value), now);
    }
  }

  /** Which steps leave a closed thread open. */
  lemma HandleOpens(b: Box, op: Op, sla: int)
    requires op.Reply? || op.Jot? || op.Update?
    ensures b.thread.status == Closed ==>
      (Step(b, op, sla).thread.status != Closed <==>
       op.Reply? || (op.Update? && op.change.status.Some? && op.change.status.value != Closed))
  {
  }

  lemma SweepKeepsOneOpen(x: Boxes, now: int, tickets: map<string, string>, shown: set<string>, sla: int)
    requires OneOpen(x)
    ensures OneOpen(Next(x, SweepAll(now, tickets, shown), sla))
  {
    forall id | id in x
      ensures var t := Swept(x[id], now, TicketFor(id, tickets)).thread;
        SamePlace(t, x[id].thread) && t.status == x[id].thread.status
    {
      SweptKeepsPlace(x[id], now, TicketFor(id, tickets));
    }
  }

  /** Replacing one thread, in place, by one that competes with no other. */
  lemma PutKeepsOneOpen(x: Boxes, id: string, b: Box)
    requires OneOpen(x)
    ensures OneOpen(x[id := b]) <==>
      (b.thread.status != Closed ==> forall j | j in x && j != id :: !OpenFor(x[j], b.thread.Of()))
  {
    var next := x[id := b];
    if b.thread.status != Closed {
      if j :| j in x && j != id && OpenFor(x[j], b.thread.Of()) {
        assert next[j] == x[j] && next[id] == b;
      }
    }
  }

  /** A contact has at most one open thread on a channel: every step keeps this but a revival or an oversight. */
  lemma OneOpenKept(x: Boxes, e: Event, sla: int)
    requires OneOpen(x) && Legal(x, e)
    ensures OneOpen(Next(x, e, sla)) <==> !Revives(x, e) && !Overlooks(x, e)
  {
    match e
    case SweepAll(now, tickets, shown) => SweepKeepsOneOpen(x, now, tickets, shown, sla);
    case Arrive(id, who, what, _) =>
      var b := BoxAt(x, id, who);
      StepKeepsPlace(b, what, sla);
      PutKeepsOneOpen(x, id, Step(b, what, sla));
    case Handle(id, what) =>
      StepKeepsPlace(x[id], what, sla);
      HandleOpens(x[id], what, sla);
      PutKeepsOneOpen(x, id, Step(x[id], what, sla));
  }

  // -- who is swept --------------------------------------------------------------------------------

  /** A sweep marks a thread exactly when the store shows it and it is due to be flagged. */
  lemma SweepMarksShown(x: Boxes, now: int, tickets: map<string, string>, shown: set<string>, sla: int, id: string)
    requires id in x && !x[id].thread.breached
    ensures Next(x, SweepAll(now, tickets, shown), sla)[id].thread.breached <==> id in shown && Flags(x[id].thread, now)
  {
    SweptMarks(x[id], now, TicketFor(id, tickets));
  }

  lemma SweptMarks(b: Box, now: int, ticket: Option<string>)
    ensures Swept(b, now, ticket).thread.breached <==> b.thread.breached || Flags(b.thread, now)
  {
  }

  /**
   A text not answered at once is marked as late by a sweep after its deadline exactly when the thread
   was not marked before, the deadline has passed, and the store shows the thread to the sweep.
   */
  lemma UnansweredIsMarked(x: Boxes, id: string, who: Party, inb: Incoming, listed: set<string>, sla: int,
                           now: int, tickets: map<string, string>, shown: set<string>)
    requires !AnsweredAtOnce(BoxAt(x, id, who).thread, inb)
    ensures var t := BoxAt(x, id, who).thread;
      var filed := Next(x, Arrive(id, who, Op.Inbound(inb), listed), sla);
      !filed[id].thread.breached && Next(filed, SweepAll(now, tickets, shown), sla)[id].thread.breached
      <==> id in shown && !t.breached && Deadline(t, inb, sla) <= now
  {
    var b := BoxAt(x, id, who);
    UnansweredIsFlagged(b, inb, sla, now);
    UnansweredKeepsMark(b, inb, sla);
    var filed := Next(x, Arrive(id, who, Op.Inbound(inb), listed), sla);
    assert filed[id] == Step(b, Op.Inbound(inb), sla);
    if !b.thread.breached {
      SweepMarksShown(filed, now, tickets, shown, sla, id);
    }
  }

  lemma UnansweredKeepsMark(b: Box, inb: Incoming, sla: int)
    requires !AnsweredAtOnce(b.thread, inb)
    ensures Step(b, Op.Inbound(inb), sla).thread.breached == b.thread.breached
  {
    assert !Consults(Received(b, inb, sla).thread, inb);
  }

  /** A thread that the store shows to no sweep of a run is never marked, however late its answers. */
  lemma {:induction false} UnshownIsNeverMarked(x: Boxes, id: string, events: seq<Event>, sla: int)
    requires id in x && !x[id].thread.breached
    requires forall e | e in events && (e.Arrive? || e.Handle?) :: !e.what.Sweep?
    requires forall e | e in events && e.SweepAll? :: id !in e.shown
    ensures id in RunAll(x, events, sla) && !RunAll(x, events, sla)[id].thread.breached
    decreases |events|
  {
    if events != [] {
      var e := events[0];
      assert e in events;
      if e.Arrive? && e.id == id {
        OnlySweepsMark(x[id], e.what, sla);
      } else if e.Handle? && e.id == id {
        OnlySweepsMark(x[id], e.what, sla);
      } else {
        assert Next(x, e, sla)[id] == x[id];
      }
      UnshownIsNeverMarked(Next(x, e, sla), id, events[1..], sla);
    }
  }

  /** Behind five thousand newer threads, of whatever tenants, a thread is not shown to a sweep. */
  lemma OldIsUnshown(order: seq<string>, k: nat)
    requires k < |order| && forall i, j | 0 <= i < j < |order| :: order[i] != order[j]
    ensures order[k] in Newest(order, SWEEP_LISTING) <==> |order| <= k + SWEEP_LISTING
  {
    var shown := Newest(order, SWEEP_LISTING);
    if |order| <= k + SWEEP_LISTING && |order| > SWEEP_LISTING {
      assert shown[k - (|order| - SWEEP_LISTING)] == order[k];
    }
  }

  /** A tenant's threads, in order. */
  function Mine(order: seq<string>, x: Boxes, tenant: string): seq<string> {
    if order == [] then []
    else (if order[0] in x && x[order[0]].thread.tenant == tenant then [order[0]] else []) + Mine(order[1..], x, tenant)
  }

  lemma {:induction false} MineMembers(order: seq<string>, x: Boxes, tenant: string)
    ensures forall id :: id in Mine(order, x, tenant) <==> id in order && id in x && x[id].thread.tenant == tenant
  {
    if order != [] {
      MineMembers(order[1..], x, tenant);
      assert forall id :: id in order <==> id == order[0] || id in order[1..];
    }
  }

  // -- the service -------------------------------------------------------------------------------

  /** Part way through a pass: the threads still to come are as they were. */
  ghost predicate PartWay(was: Boxes, x: Boxes, goal: Boxes, rest: set<string>) {
    && x.Keys == was.Keys == goal.Keys && rest <= x.Keys
    && forall id | id in x :: x[id] == if id in rest then was[id] else goal[id]
  }

  lemma PartWayOn(was: Boxes, x: Boxes, goal: Boxes, rest: set<string>, id: string)
    requires PartWay(was, x, goal, rest) && id in rest
    ensures PartWay(was, x[id := goal[id]], goal, rest - {id})
  {
  }

  /** Of the threads gone through, those reported are those flagged. */
  ghost predicate Reported(was: Boxes, shown: set<string>, rest: set<string>, now: int, flagged: set<string>) {
    forall id :: id in flagged <==> id in was && id in shown && id !in rest && Flags(was[id].thread, now)
  }

  lemma ReportedOn(was: Boxes, shown: set<string>, rest: set<string>, now: int, flagged: set<string>, id: string)
    requires Reported(was, shown, rest, now, flagged) && id in rest && id in was && id in shown
    ensures Reported(was, shown, rest - {id}, now, if Flags(was[id].thread, now) then flagged + {id} else flagged)
  {
  }

  class Service {
    const sla: int
    var boxes: Boxes
    /** Every thread, in the order in which they were opened. */
    var order: seq<string>

    constructor (sla: int)
      ensures this.sla == sla && boxes == map[] && order == []
    {
      this.sla, boxes, order := sla, map[], [];
    }

    /** What a listing for one tenant shows: the newest of its threads. */
    function Listing(tenant: string): seq<string>
      reads this
    {
      Newest(Mine(order, boxes, tenant), LISTING)
    }

    ghost function Shown(tenant: string): set<string>
      reads this
    {
      set id | id in Listing(tenant)
    }

    /** What a sweep is shown: the newest threads of all tenants together. */
    function SweepShown(): set<string>
      reads this
    {
      set id | id in Newest(order, SWEEP_LISTING)
    }

    ghost predicate Listed()
      reads this
    {
      && (forall id :: id in order <==> id in boxes)
      && (forall i, j | 0 <= i < j < |order| :: order[i] != order[j])
    }

    method Append(id: string, m: Message, countUnread: bool)
      requires id in boxes
      modifies `boxes
      ensures boxes == old(boxes)[id := Appended(old(boxes[id]), m, countUnread)]
    {
      var t := boxes[id].thread;
      t := t.(count := t.count + 1);
      if m.direction != Direction.Note {
        t := t.(preview := Clip(m.text), lastDirection := Some(m.direction));
      }
      if countUnread {
        t := t.(unread := t.unread + 1);
      }
      if m.direction == Out {
        t := t.(unread := 0, slaDue := None, breached := false);
      }
      boxes := boxes[id := boxes[id].(thread := t, log := boxes[id].log + [m])];
    }

    method Deliver(id: string, text: string, author: Author, name: Option<string>, unreadAfter: nat, at: int)
      requires id in boxes
      modifies `boxes
      ensures boxes == old(boxes)[id := Delivered(old(boxes[id]), text, author, name, unreadAfter, at)]
    {
      Append(id, Message(Out, author, name, text, at), false);
      if 0 < unreadAfter {
        boxes := boxes[id := boxes[id].(thread := boxes[id].thread.(unread := unreadAfter))];
      }
    }

    method Announce(id: string, text: string, at: int)
      requires id in boxes
      modifies `boxes
      ensures boxes == old(boxes)[id := Announced(old(boxes[id]), text, at)]
    {
      var t := boxes[id].thread;
      if t.channel != Webchat {
        return;
      }
      Append(id, Message(Out, System, None, text, at), false);
      boxes := boxes[id := boxes[id].(thread :=
        boxes[id].thread.(unread := t.unread, slaDue := t.slaDue, breached := t.breached))];
    }

    lemma ListedInBoxes(tenant: string)
      ensures forall k | 0 <= k < |Listing(tenant)| :: Listing(tenant)[k] in boxes
    {
      MineMembers(order, boxes, tenant);
      var mine, listing := Mine(order, boxes, tenant), Listing(tenant);
      forall k | 0 <= k < |listing|
        ensures listing[k] in boxes
      {
        assert listing[k] in mine;
      }
    }

    /** The newest open thread of this contact and channel that the store shows, or a new one under `unused`. */
    method FindOrOpen(who: Party, unused: string) returns (id: string)
      requires unused !in boxes && Listed()
      modifies `boxes, `order
      ensures Listed()
      ensures id in old(boxes) ==>
        && boxes == old(boxes) && order == old(order) && OpenFor(boxes[id], who) && id in Shown(who.tenant)
        && var listing := Listing(who.tenant);
           exists k | 0 <= k < |listing| :: listing[k] == id
             && forall m | k < m < |listing| :: listing[m] in boxes && !OpenFor(boxes[listing[m]], who)
      ensures id !in old(boxes) ==>
        && id == unused && boxes == old(boxes)[id := NewBox(who)] && order == old(order) + [id]
        && forall j | j in old(boxes) && j in old(Shown(who.tenant)) :: !OpenFor(old(boxes)[j], who)
    {
      var listing := Listing(who.tenant);
      ListedInBoxes(who.tenant);
      var k := |listing|;
      while k > 0
        invariant 0 <= k <= |listing|
        invariant forall m | k <= m < |listing| :: !OpenFor(boxes[listing[m]], who)
      {
        k := k - 1;
        if OpenFor(boxes[listing[k]], who) {
          return listing[k];
        }
      }
      id := unused;
      boxes := boxes[id := NewBox(who)];
      order := order + [id];
    }

    /** A contact's text is filed, then answered unless a person has the thread. */
    method Inbound(who: Party, inb: Incoming, unused: string) returns (id: string)
      requires unused !in boxes && Listed()
      modifies `boxes, `order
      ensures Listed() && Legal(old(boxes), Arrive(id, who, Op.Inbound(inb), old(Shown(who.tenant))))
      ensures boxes == Next(old(boxes), Arrive(id, who, Op.Inbound(inb), old(Shown(who.tenant))), sla)
    {
      id := FindOrOpen(who, unused);
      TakeText(id, inb);
    }

    method TakeText(id: string, inb: Incoming)
      requires id in boxes
      modifies `boxes
      ensures boxes == old(boxes)[id := Step(old(boxes[id]), Op.Inbound(inb), sla)]
    {
      Receive(id, inb);
      Answer(id, inb);
    }

    method Receive(id: string, inb: Incoming)
      requires id in boxes
      modifies `boxes
      ensures boxes == old(boxes)[id := Received(old(boxes[id]), inb, sla)]
    {
      var t := boxes[id].thread;
      if t.status == Closed {
        t := t.(status := Open);
      }
      if t.slaDue.None? {
        t := t.(slaDue := Some(inb.at + sla));
      }
      boxes := boxes[id := boxes[id].(thread := t)];
      Append(id, Message(In, Contact, inb.name, inb.text, inb.at), true);
    }

    method Answer(id: string, inb: Incoming)
      requires id in boxes
      modifies `boxes
      ensures boxes == old(boxes)[id := Answered(old(boxes[id]), inb, sla)]
    {
      var t := boxes[id].thread;
      if t.channel == Sms && inb.keywordReply != "" {
        Deliver(id, inb.keywordReply, Ai, inb.assistant, 0, inb.at);
        return;
      }
      if t.channel == Sms && inb.reminderReply != "" {
        Deliver(id, inb.reminderReply, Ai, inb.assistant, 0, inb.at);
        return;
      }
      if inb.assistant.None? || !t.aiEnabled || !Texting(t.channel) {
        return;
      }
      Speak(id, inb);
      if inb.turn.handoff {
        HandOver(id, inb);
      }
    }

    method Speak(id: string, inb: Incoming)
      requires id in boxes
      modifies `boxes
      ensures boxes == old(boxes)[id := Spoken(old(boxes[id]), inb)]
    {
      boxes := boxes[id := boxes[id].(consulted := boxes[id].consulted + 1)];
      Deliver(id, inb.turn.reply, Ai, inb.assistant, 1, inb.at);
    }

    method HandOver(id: string, inb: Incoming)
      requires id in boxes
      modifies `boxes
      ensures boxes == old(boxes)[id :=
        Announced(CalledIn(old(boxes[id]), inb.turn, inb.at + sla), HandoffLine(inb.turn.department), inb.at)]
    {
      var t := boxes[id].thread;
      t := t.(aiEnabled := false, status := Waiting, callback := inb.turn.ticket, slaDue := Some(inb.at + sla));
      boxes := boxes[id := boxes[id].(thread := t, handoffs := boxes[id].handoffs + 1)];
      Announce(id, HandoffLine(inb.turn.department), inb.at);
    }

    /** A person's reply pauses the assistant and takes the thread if nobody has it; `seen` as in Joining. */
    method Reply(id: string, who: string, shownAs: string, seen: nat, text: string, at: int)
      requires id in boxes
      modifies `boxes
      ensures boxes == Next(old(boxes), Handle(id, Op.Reply(who, shownAs, seen, text, at)), sla)
    {
      var joining := Joining(boxes[id], who, seen);
      var t := boxes[id].thread;
      t := t.(aiEnabled := false, status := Open);
      if t.assignedTo.None? {
        t := t.(assignedTo := Some(who));
      }
      boxes := boxes[id := boxes[id].(thread := t)];
      if joining {
        Announce(id, shownAs + " has joined the chat.", at);
      }
      assert boxes[id] == Met(old(boxes[id]), who, shownAs, seen, at);
      Deliver(id, text, Agent, Some(who), 0, at);
    }

    method Note(id: string, who: string, text: string, at: int)
      requires id in boxes
      modifies `boxes
      ensures boxes == Next(old(boxes), Handle(id, Jot(who, text, at)), sla)
    {
      Append(id, Message(Direction.Note, Agent, Some(who), text, at), false);
    }

    method Update(id: string, c: Change, at: int)
      requires id in boxes
      modifies `boxes
      ensures boxes == Next(old(boxes), Handle(id, Op.Update(c, at)), sla)
    {
      if c.status.Some? {
        if c.status.value == Closed && boxes[id].thread.status != Closed {
          Announce(id, CLOSING_LINE, at);
        }
        assert boxes[id] == Told(old(boxes[id]), c.status.value, at);
        boxes := boxes[id := boxes[id].(thread := WithStatus(boxes[id].thread, c.status.value))];
      }
      boxes := boxes[id := boxes[id].(thread := Changed(boxes[id].thread, c))];
    }

    method OnCallEnded(who: Party, inwards: bool, missed: bool, text: string, at: int, unused: string)
      returns (id: string)
      requires unused !in boxes && Listed()
      modifies `boxes, `order
      ensures Listed() && Legal(old(boxes), Arrive(id, who, CallOver(inwards, missed, text, at), old(Shown(who.tenant))))
      ensures boxes == Next(old(boxes), Arrive(id, who, CallOver(inwards, missed, text, at), old(Shown(who.tenant))), sla)
    {
      id := FindOrOpen(who, unused);
      FileCall(id, inwards, missed, text, at);
    }

    method FileCall(id: string, inwards: bool, missed: bool, text: string, at: int)
      requires id in boxes
      modifies `boxes
      ensures boxes == old(boxes)[id := Step(old(boxes[id]), CallOver(inwards, missed, text, at), sla)]
    {
      Append(id, Message(if inwards then In else Out, System, None, text, at), missed);
    }

    method SweepThread(id: string, now: int, ticket: Option<string>) returns (flagged: bool)
      requires id in boxes
      modifies `boxes
      ensures boxes == old(boxes)[id := Swept(old(boxes[id]), now, ticket)]
      ensures flagged == Flags(old(boxes[id]).thread, now)
    {
      flagged := Flags(boxes[id].thread, now);
      if !flagged {
        return;
      }
      var late := boxes[id].(thread := boxes[id].thread.(breached := true));
      boxes := boxes[id := late];
      if late.thread.status == Waiting && !late.thread.aiEnabled && late.thread.callback.None? && ticket.Some? {
        boxes := boxes[id := late.(thread := late.thread.(callback := ticket), callbacks := late.callbacks + 1)];
        Announce(id, CallbackLine(ticket.value), now);
      }
    }

    /** Flags exactly the open, unflagged threads whose deadline has passed, among those the store shows. */
    method SweepSla(now: int, tickets: map<string, string>) returns (flagged: set<string>)
      requires Listed()
      modifies `boxes
      ensures boxes == Next(old(boxes), SweepAll(now, tickets, SweepShown()), sla)
      ensures forall id :: id in flagged <==> id in SweepShown() && id in old(boxes) && Flags(old(boxes[id]).thread, now)
    {
      flagged := {};
      ghost var was := boxes;
      ghost var swept := Next(was, SweepAll(now, tickets, SweepShown()), sla);
      var rest := SweepShown();
      ghost var shown := rest;
      while rest != {}
        invariant rest <= shown && PartWay(was, boxes, swept, rest)
        invariant Reported(was, shown, rest, now, flagged)
        decreases |rest|
      {
        ghost var some := Ordered.SomeMember(rest);
        var id :| id in rest;
        PartWayOn(was, boxes, swept, rest, id);
        ReportedOn(was, shown, rest, now, flagged, id);
        var late := SweepThread(id, now, TicketFor(id, tickets));
        if late {
          flagged := flagged + {id};
        }
        rest := rest - {id};
      }
      assert boxes == swept;
    }
  }
}
