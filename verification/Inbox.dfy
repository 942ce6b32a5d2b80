/**
 The shared inbox (apps/api/parlio_api/inbox.py): one conversation with its cached summary, the
 hand-off between the assistant and people, and the sweep for late answers.
 */
module Inbox {
  import opened Wrappers

  datatype Channel = Call | Voicemail | Sms | Whatsapp | Webchat

  datatype Status = Open | Waiting | Closed

  datatype Direction = In | Out | Note

  datatype Author = Contact | Ai | Agent | System

  datatype Message = Message(direction: Direction, author: Author, name: Option<string>, text: string, at: int)

  /** Whose conversation it is: a tenant's contact on a channel. */
  datatype Party = Party(tenant: string, channel: Channel, identity: string)

  datatype Thread = Thread(
    tenant: string, channel: Channel, identity: string, status: Status, assignedTo: Option<string>, aiEnabled: bool,
    callback: Option<string>, unread: nat, count: nat, preview: string,
    lastDirection: Option<Direction>, slaDue: Option<int>, breached: bool)
  {
    function Of(): Party {
      Party(tenant, channel, identity)
    }
  }

  /**
   A thread with its messages.  The counters record how often the assistant was consulted, how often
   it handed over, and how many callback tickets the sweep opened.
   */
  datatype Box = Box(thread: Thread, log: seq<Message>, consulted: nat, handoffs: nat, callbacks: nat)

  function NewBox(who: Party): Box {
    Box(Thread(who.tenant, who.channel, who.identity, Open, None, true, None, 0, 0, "", None, None, false), [], 0, 0, 0)
  }

  // -- the steps ---------------------------------------------------------------------------------

  const PREVIEW: nat := 140
  const CLOSING_LINE := "This chat has been closed. Send a message if you need anything else."

  function Clip(text: string): string {
    if |text| <= PREVIEW then text else text[..PREVIEW]
  }

  function HandoffLine(department: Option<string>): string {
    "Connecting you to " + (if department.Some? && department.value != "" then department.value else "a team member")
    + "\U{2026} this can take a couple of minutes. Please keep this chat open."
  }

  function CallbackLine(ticket: string): string {
    "Sorry, nobody was free to pick up. We've logged your request (ref " + ticket
    + ") and the team will get back to you."
  }

  function Appended(b: Box, m: Message, countUnread: bool): Box {
    var t := b.thread;
    var shown := m.direction != Note;
    var out := m.direction == Out;
    b.(log := b.log + [m], thread := t.(
      count := t.count + 1,
      preview := if shown then Clip(m.text) else t.preview,
      lastDirection := if shown then Some(m.direction) else t.lastDirection,
      unread := if out then 0 else if countUnread then t.unread + 1 else t.unread,
      slaDue := if out then None else t.slaDue,
      breached := !out && t.breached))
  }

  function Delivered(b: Box, text: string, author: Author, name: Option<string>, unreadAfter: nat, at: int): Box {
    var sent := Appended(b, Message(Out, author, name, text, at), false);
    sent.(thread := sent.thread.(unread := unreadAfter))
  }

  /** A line for the visitor: web chat only, and it answers nothing. */
  function Announced(b: Box, text: string, at: int): Box {
    if b.thread.channel != Webchat then b
    else
      var sent := Appended(b, Message(Out, System, None, text, at), false);
      sent.(thread := sent.thread.(unread := b.thread.unread, slaDue := b.thread.slaDue, breached := b.thread.breached))
  }

  datatype Turn = Turn(reply: string, handoff: bool, department: Option<string>, ticket: Option<string>)

  /** A text from a contact, with what the rest of the system makes of it. */
  datatype Incoming = Incoming(
    name: Option<string>, text: string, assistant: Option<string>,
    keywordReply: string, reminderReply: string, turn: Turn, at: int)

  datatype Change = Change(status: Option<Status>, assignTo: Option<string>, clearAssignee: bool,
                           aiEnabled: Option<bool>, read: bool)

  datatype Op =
    | Inbound(inb: Incoming)
    | Reply(who: string, shownAs: string, seen: nat, text: string, at: int)
    | Jot(who: string, text: string, at: int)
    | Update(change: Change, at: int)
    | CallOver(inwards: bool, missed: bool, text: string, at: int)
    | Sweep(now: int, ticket: Option<string>)

  predicate Texting(c: Channel) {
    c == Sms || c == Whatsapp || c == Webchat
  }

  /** An open thread with a deadline: an earlier one stands. */
  function Awaiting(t: Thread, due: int): Thread {
    t.(status := if t.status == Closed then Open else t.status,
       slaDue := if t.slaDue.None? then Some(due) else t.slaDue)
  }

  function Received(b: Box, inb: Incoming, sla: int): Box {
    Appended(b.(thread := Awaiting(b.thread, inb.at + sla)), Message(In, Contact, inb.name, inb.text, inb.at), true)
  }

  /** Whether this text is put to the assistant. */
  predicate Consults(t: Thread, inb: Incoming) {
    && !(t.channel == Sms && (inb.keywordReply != "" || inb.reminderReply != ""))
    && inb.assistant.Some? && t.aiEnabled && Texting(t.channel)
  }

  /** Whether the text is answered at once, by a canned reply or by the assistant. */
  predicate AnsweredAtOnce(t: Thread, inb: Incoming) {
    (t.channel == Sms && (inb.keywordReply != "" || inb.reminderReply != "")) || Consults(t, inb)
  }

  function Spoken(b: Box, inb: Incoming): Box {
    Delivered(b.(consulted := b.consulted + 1), inb.turn.reply, Ai, inb.assistant, 1, inb.at)
  }

  function CalledIn(b: Box, turn: Turn, due: int): Box {
    b.(handoffs := b.handoffs + 1, thread := b.thread.(
      aiEnabled := false, status := Waiting, callback := turn.ticket, slaDue := Some(due)))
  }

  function Answered(b: Box, inb: Incoming, sla: int): Box {
    if b.thread.channel == Sms && inb.keywordReply != "" then
      Delivered(b, inb.keywordReply, Ai, inb.assistant, 0, inb.at)
    else if b.thread.channel == Sms && inb.reminderReply != "" then
      Delivered(b, inb.reminderReply, Ai, inb.assistant, 0, inb.at)
    else if !Consults(b.thread, inb) then b
    else if !inb.turn.handoff then Spoken(b, inb)
    else Announced(CalledIn(Spoken(b, inb), inb.turn, inb.at + sla), HandoffLine(inb.turn.department), inb.at)
  }

  /** The newest of a list kept in order of age. */
  function Newest<T>(s: seq<T>, n: nat): seq<T> {
    if |s| <= n then s else s[|s| - n..]
  }

  /** The first word of a person, as far as the `seen` newest messages tell that the store shows of the thread. */
  predicate Joining(b: Box, who: string, seen: nat) {
    && (b.thread.lastDirection != Some(Out) || b.thread.status == Waiting)
    && forall m | m in Newest(b.log, seen) :: !(m.author == Agent && m.name == Some(who))
  }

  function Taken(b: Box, who: string): Box {
    b.(thread := b.thread.(aiEnabled := false, status := Open,
      assignedTo := if b.thread.assignedTo.None? then Some(who) else b.thread.assignedTo))
  }

  function Met(b: Box, who: string, shownAs: string, seen: nat, at: int): Box {
    if Joining(b, who, seen) then Announced(Taken(b, who), shownAs + " has joined the chat.", at) else Taken(b, who)
  }

  function Replied(b: Box, who: string, shownAs: string, seen: nat, text: string, at: int): Box {
    Delivered(Met(b, who, shownAs, seen, at), text, Agent, Some(who), 0, at)
  }

  /** Closing tells the visitor, unless the thread was closed already. */
  function Told(b: Box, status: Status, at: int): Box {
    if status == Closed && b.thread.status != Closed then Announced(b, CLOSING_LINE, at) else b
  }

  function WithStatus(t: Thread, status: Status): Thread {
    t.(status := status,
       unread := if status == Closed then 0 else t.unread,
       slaDue := if status == Closed then None else t.slaDue)
  }

  function Changed(t: Thread, c: Change): Thread {
    t.(assignedTo := if c.clearAssignee then None else if c.assignTo.Some? then c.assignTo else t.assignedTo,
       aiEnabled := if c.aiEnabled.Some? then c.aiEnabled.value else t.aiEnabled,
       status := if c.aiEnabled == Some(true) && t.status == Waiting then Open else t.status,
       unread := if c.read then 0 else t.unread)
  }

  function Updated(b: Box, c: Change, at: int): Box {
    if c.status.None? then b.(thread := Changed(b.thread, c))
    else
      var told := Told(b, c.status.value, at);
      told.(thread := Changed(WithStatus(told.thread, c.status.value), c))
  }

  predicate Flags(t: Thread, now: int) {
    !t.breached && t.slaDue.Some? && t.status != Closed && t.slaDue.value <= now
  }

  /** One thread under the sweep; `ticket` is the callback ticket, if one can be opened. */
  function Swept(b: Box, now: int, ticket: Option<string>): Box {
    if !Flags(b.thread, now) then b
    else
      var late := b.(thread := b.thread.(breached := true));
      if late.thread.status == Waiting && !late.thread.aiEnabled && late.thread.callback.None? && ticket.Some? then
        Announced(late.(thread := late.thread.(callback := ticket), callbacks := late.callbacks + 1),
                  CallbackLine(ticket.value), now)
      else late
  }

  function Step(b: Box, op: Op, sla: int): Box {
    match op
    case Inbound(inb) => Answered(Received(b, inb, sla), inb, sla)
    case Reply(who, shownAs, seen, text, at) => Replied(b, who, shownAs, seen, text, at)
    case Jot(who, text, at) => Appended(b, Message(Note, Agent, Some(who), text, at), false)
    case Update(change, at) => Updated(b, change, at)
    case CallOver(inwards, missed, text, at) =>
      Appended(b, Message(if inwards then In else Out, System, None, text, at), missed)
    case Sweep(now, ticket) => Swept(b, now, ticket)
  }

  function Run(b: Box, ops: seq<Op>, sla: int): Box
    decreases |ops|
  {
    if ops == [] then b else Run(Step(b, ops[0], sla), ops[1..], sla)
  }

  lemma {:induction false} RunThen(b: Box, first: seq<Op>, next: seq<Op>, sla: int)
    ensures Run(b, first + next, sla) == Run(Run(b, first, sla), next, sla)
    decreases |first|
  {
    if first == [] {
      assert first + next == next;
    } else {
      assert (first + next)[1..] == first[1..] + next;
      RunThen(Step(b, first[0], sla), first[1..], next, sla);
    }
  }

  // -- the summary agrees with the messages -------------------------------------------------------

  /** The latest message that is not a note. */
  function LatestShown(log: seq<Message>): Option<Message> {
    if log == [] then None
    else if log[|log| - 1].direction != Note then Some(log[|log| - 1])
    else LatestShown(log[..|log| - 1])
  }

  ghost predicate Agrees(b: Box) {
    && b.thread.count == |b.log|
    && match LatestShown(b.log)
       case None => b.thread.preview == "" && b.thread.lastDirection == None
       case Some(m) => b.thread.preview == Clip(m.text) && b.thread.lastDirection == Some(m.direction)
  }

  lemma AppendAgrees(b: Box, m: Message, countUnread: bool)
    requires Agrees(b)
    ensures Agrees(Appended(b, m, countUnread))
  {
  }

  lemma DeliverAgrees(b: Box, text: string, author: Author, name: Option<string>, unreadAfter: nat, at: int)
    requires Agrees(b)
    ensures Agrees(Delivered(b, text, author, name, unreadAfter, at))
  {
  }

  lemma AnnounceAgrees(b: Box, text: string, at: int)
    requires Agrees(b)
    ensures Agrees(Announced(b, text, at))
  {
  }

  lemma InboundAgrees(b: Box, inb: Incoming, sla: int)
    requires Agrees(b)
    ensures Agrees(Step(b, Inbound(inb), sla))
  {
    var got := Received(b, inb, sla);
    AppendAgrees(b.(thread := Awaiting(b.thread, inb.at + sla)), Message(In, Contact, inb.name, inb.text, inb.at), true);
    AnswerAgrees(got, inb, sla);
  }

  lemma SpokenAgrees(b: Box, inb: Incoming)
    requires Agrees(b)
    ensures Agrees(Spoken(b, inb))
  {
  }

  lemma AnswerAgrees(b: Box, inb: Incoming, sla: int)
    requires Agrees(b)
    ensures Agrees(Answered(b, inb, sla))
  {
    if b.thread.channel == Sms && inb.keywordReply != "" {
      DeliverAgrees(b, inb.keywordReply, Ai, inb.assistant, 0, inb.at);
    } else if b.thread.channel == Sms && inb.reminderReply != "" {
      DeliverAgrees(b, inb.reminderReply, Ai, inb.assistant, 0, inb.at);
    } else if Consults(b.thread, inb) {
      SpokenAgrees(b, inb);
      AnnounceAgrees(CalledIn(Spoken(b, inb), inb.turn, inb.at + sla), HandoffLine(inb.turn.department), inb.at);
    }
  }

  lemma ReplyAgrees(b: Box, who: string, shownAs: string, seen: nat, text: string, at: int)
    requires Agrees(b)
    ensures Agrees(Replied(b, who, shownAs, seen, text, at))
  {
  }

  lemma UpdateAgrees(b: Box, c: Change, at: int)
    requires Agrees(b)
    ensures Agrees(Updated(b, c, at))
  {
  }

  lemma SweepAgrees(b: Box, now: int, ticket: Option<string>)
    requires Agrees(b)
    ensures Agrees(Swept(b, now, ticket))
  {
    if ticket.Some? {
      var late := b.(thread := b.thread.(breached := true));
      AnnounceAgrees(late.(thread := late.thread.(callback := ticket), callbacks := late.callbacks + 1),
                     CallbackLine(ticket.value), now);
    }
  }

  lemma StepAgrees(b: Box, op: Op, sla: int)
    requires Agrees(b)
    ensures Agrees(Step(b, op, sla))
  {
    match op
    case Inbound(inb) => InboundAgrees(b, inb, sla);
    case Reply(who, shownAs, seen, text, at) => ReplyAgrees(b, who, shownAs, seen, text, at);
    case Jot(who, text, at) => AppendAgrees(b, Message(Note, Agent, Some(who), text, at), false);
    case Update(change, at) => UpdateAgrees(b, change, at);
    case CallOver(inwards, missed, text, at) =>
      AppendAgrees(b, Message(if inwards then In else Out, System, None, text, at), missed);
    case Sweep(now, ticket) => SweepAgrees(b, now, ticket);
  }

  /** Over every run the cached count, preview and direction are those of the messages stored. */
  lemma {:induction false} SummaryAgrees(b: Box, ops: seq<Op>, sla: int)
    requires Agrees(b)
    ensures Agrees(Run(b, ops, sla))
    decreases |ops|
  {
    if ops != [] {
      StepAgrees(b, ops[0], sla);
      SummaryAgrees(Step(b, ops[0], sla), ops[1..], sla);
    }
  }

  // -- once a person is in, the assistant stays out -----------------------------------------------

  predicate GivesBack(op: Op) {
    op.Update? && op.change.aiEnabled == Some(true)
  }

  /** A reply by a person, or a text on which the assistant hands over. */
  predicate BringsIn(b: Box, op: Op, sla: int) {
    op.Reply? || (op.Inbound? && Consults(Received(b, op.inb, sla).thread, op.inb) && op.inb.turn.handoff)
  }

  lemma StepSilent(b: Box, op: Op, sla: int)
    requires !b.thread.aiEnabled && !GivesBack(op)
    ensures !Step(b, op, sla).thread.aiEnabled && Step(b, op, sla).consulted == b.consulted
  {
    match op
    case Inbound(inb) => assert !Received(b, inb, sla).thread.aiEnabled;
    case Reply(who, shownAs, seen, text, at) => assert !Met(b, who, shownAs, seen, at).thread.aiEnabled;
    case Sweep(now, ticket) => SweepSilent(b, now, ticket);
    case _ =>
  }

  lemma SweepSilent(b: Box, now: int, ticket: Option<string>)
    ensures Swept(b, now, ticket).thread.aiEnabled == b.thread.aiEnabled && Swept(b, now, ticket).consulted == b.consulted
  {
  }

  lemma {:induction false} SilentWhileOff(b: Box, ops: seq<Op>, sla: int)
    requires !b.thread.aiEnabled && forall op | op in ops :: !GivesBack(op)
    ensures !Run(b, ops, sla).thread.aiEnabled && Run(b, ops, sla).consulted == b.consulted
    decreases |ops|
  {
    if ops != [] {
      assert ops[0] in ops;
      StepSilent(b, ops[0], sla);
      SilentWhileOff(Step(b, ops[0], sla), ops[1..], sla);
    }
  }

  lemma BroughtIn(b: Box, op: Op, sla: int)
    requires BringsIn(b, op, sla)
    ensures !Step(b, op, sla).thread.aiEnabled
  {
    if op.Inbound? {
      var got := Received(b, op.inb, sla);
      assert !CalledIn(Spoken(got, op.inb), op.inb.turn, op.inb.at + sla).thread.aiEnabled;
    } else {
      assert !Met(b, op.who, op.shownAs, op.seen, op.at).thread.aiEnabled;
    }
  }

  /** After a person replies or is called in, the assistant is not consulted until it is switched back on. */
  lemma AgentStaysSilent(b: Box, first: seq<Op>, op: Op, next: seq<Op>, sla: int)
    requires BringsIn(Run(b, first, sla), op, sla) && forall o | o in next :: !GivesBack(o)
    ensures Run(b, first + [op] + next, sla).consulted == Run(b, first + [op], sla).consulted
    ensures !Run(b, first + [op] + next, sla).thread.aiEnabled
  {
    RunThen(b, first + [op], next, sla);
    RunThen(b, first, [op], sla);
    var mid := Run(b, first, sla);
    assert Run(mid, [op], sla) == Step(mid, op, sla);
    BroughtIn(mid, op, sla);
    SilentWhileOff(Step(mid, op, sla), next, sla);
  }

  // -- the sweep ----------------------------------------------------------------------------------

  /** A thread once flagged is left alone, whatever the instant: a repeated sweep adds nothing. */
  lemma SweepTwice(b: Box, now: int, later: int, first: Option<string>, second: Option<string>)
    requires Flags(b.thread, now) || later <= now
    ensures Swept(Swept(b, now, first), later, second) == Swept(b, now, first)
    ensures !Flags(Swept(b, now, first).thread, later)
  {
  }

  /** What is still to be opened is covered by the hand-overs so far. */
  predicate Covered(b: Box) {
    b.callbacks + (if b.thread.callback.None? then 1 else 0) <= b.handoffs + 1
  }

  lemma InboundCovered(b: Box, inb: Incoming, sla: int)
    requires Covered(b)
    ensures Covered(Step(b, Inbound(inb), sla))
  {
    var got := Received(b, inb, sla);
    assert Covered(got);
    assert Covered(Spoken(got, inb));
    assert Covered(CalledIn(Spoken(got, inb), inb.turn, inb.at + sla));
  }

  lemma StepCovered(b: Box, op: Op, sla: int)
    requires Covered(b)
    ensures Covered(Step(b, op, sla))
  {
    match op
    case Inbound(inb) => InboundCovered(b, inb, sla);
    case Reply(who, shownAs, seen, text, at) => assert Covered(Met(b, who, shownAs, seen, at));
    case Update(change, at) => if change.status.Some? { assert Covered(Told(b, change.status.value, at)); }
    case Sweep(now, ticket) => SweepCovered(b, now, ticket);
    case _ =>
  }

  lemma SweepCovered(b: Box, now: int, ticket: Option<string>)
    requires Covered(b)
    ensures Covered(Swept(b, now, ticket))
  {
  }

  /** The sweep opens at most one callback ticket for each hand-over, and one more. */
  lemma {:induction false} CallbacksBounded(b: Box, ops: seq<Op>, sla: int)
    requires Covered(b)
    ensures Run(b, ops, sla).callbacks <= Run(b, ops, sla).handoffs + 1
    decreases |ops|
  {
    if ops != [] {
      StepCovered(b, ops[0], sla);
      CallbacksBounded(Step(b, ops[0], sla), ops[1..], sla);
    }
  }

  /** A thread is marked late only if its present deadline has passed. */
  ghost predicate LateForCause(t: Thread, horizon: int) {
    t.breached ==> t.slaDue.Some? && t.slaDue.value <= horizon
  }

  predicate ClosesLate(b: Box, op: Op) {
    op.Update? && op.change.status == Some(Closed) && b.thread.breached
  }

  /** Closing a late thread drops its deadline and keeps its mark: the one step that breaks the rule. */
  lemma LateMarkKept(b: Box, op: Op, sla: int, horizon: int)
    requires LateForCause(b.thread, horizon) && (op.Sweep? ==> op.now <= horizon)
    ensures LateForCause(Step(b, op, sla).thread, horizon) <==> !ClosesLate(b, op)
  {
    match op
    case Inbound(inb) => InboundLateMark(b, inb, sla, horizon);
    case Reply(who, shownAs, seen, text, at) => assert !Replied(b, who, shownAs, seen, text, at).thread.breached;
    case Update(change, at) => UpdateLateMark(b, change, at, horizon);
    case _ =>
  }

  lemma InboundLateMark(b: Box, inb: Incoming, sla: int, horizon: int)
    requires LateForCause(b.thread, horizon)
    ensures LateForCause(Step(b, Inbound(inb), sla).thread, horizon)
  {
    var got := Received(b, inb, sla);
    assert LateForCause(got.thread, horizon);
    assert !Spoken(got, inb).thread.breached;
    assert !CalledIn(Spoken(got, inb), inb.turn, inb.at + sla).thread.breached;
  }

  lemma UpdateLateMark(b: Box, c: Change, at: int, horizon: int)
    requires LateForCause(b.thread, horizon)
    ensures LateForCause(Updated(b, c, at).thread, horizon) <==> !(c.status == Some(Closed) && b.thread.breached)
  {
  }

  ghost predicate NeverClosesLate(b: Box, ops: seq<Op>, sla: int)
    decreases |ops|
  {
    ops == [] || (!ClosesLate(b, ops[0]) && NeverClosesLate(Step(b, ops[0], sla), ops[1..], sla))
  }

  lemma {:induction false} LateMarksDeserved(b: Box, ops: seq<Op>, sla: int, horizon: int)
    requires LateForCause(b.thread, horizon) && NeverClosesLate(b, ops, sla)
    requires forall op | op in ops :: op.Sweep? ==> op.now <= horizon
    ensures LateForCause(Run(b, ops, sla).thread, horizon)
    decreases |ops|
  {
    if ops != [] {
      assert ops[0] in ops;
      LateMarkKept(b, ops[0], sla, horizon);
      LateMarksDeserved(Step(b, ops[0], sla), ops[1..], sla, horizon);
    }
  }

  /** The deadline that stands once a text has come in: the earlier one, if there is one. */
  function Deadline(t: Thread, inb: Incoming, sla: int): int {
    if t.slaDue.Some? then t.slaDue.value else inb.at + sla
  }

  /** A text not answered at once is due to be flagged once its deadline passes, unless the thread is marked already. */
  lemma UnansweredIsFlagged(b: Box, inb: Incoming, sla: int, now: int)
    requires !AnsweredAtOnce(b.thread, inb)
    ensures Flags(Step(b, Inbound(inb), sla).thread, now) <==> !b.thread.breached && Deadline(b.thread, inb, sla) <= now
  {
    assert !Consults(Received(b, inb, sla).thread, inb);
  }

  /** So after any run in which no late thread is closed, every fresh deadline is watched. */
  lemma FreshDeadlineIsWatched(who: Party, ops: seq<Op>, inb: Incoming, sla: int, now: int)
    requires NeverClosesLate(NewBox(who), ops, sla)
    requires var t := Run(NewBox(who), ops, sla).thread; t.slaDue.None? && !AnsweredAtOnce(t, inb)
    ensures Flags(Run(NewBox(who), ops + [Inbound(inb)], sla).thread, now) <==> inb.at + sla <= now
  {
    var b := NewBox(who);
    var horizon := LatestSweep(ops);
    LateMarksDeserved(b, ops, sla, horizon);
    RunThen(b, ops, [Inbound(inb)], sla);
    var end := Run(b, ops, sla);
    assert Run(end, [Inbound(inb)], sla) == Step(end, Inbound(inb), sla);
    UnansweredIsFlagged(end, inb, sla, now);
  }

  /** Nothing but a sweep marks a thread as late. */
  lemma OnlySweepsMark(b: Box, op: Op, sla: int)
    requires !b.thread.breached && !op.Sweep?
    ensures !Step(b, op, sla).thread.breached
  {
    match op
    case Inbound(inb) =>
      var got := Received(b, inb, sla);
      assert !got.thread.breached && !Spoken(got, inb).thread.breached;
      assert !CalledIn(Spoken(got, inb), inb.turn, inb.at + sla).thread.breached;
    case Reply(who, shownAs, seen, text, at) => assert !Met(b, who, shownAs, seen, at).thread.breached;
    case Update(change, at) => if change.status.Some? { assert !Told(b, change.status.value, at).thread.breached; }
    case _ =>
  }

  function LatestSweep(ops: seq<Op>): (horizon: int)
    ensures forall op | op in ops && op.Sweep? :: op.now <= horizon
  {
    if ops == [] then 0
    else
      var rest := LatestSweep(ops[1..]);
      if ops[0].Sweep? && rest < ops[0].now then ops[0].now else rest
  }

  /** A late thread closed and opened again: its next unanswered text is never flagged. */
  lemma ReopenedLateIsMissed(b: Box, at: int, inb: Incoming, sla: int, now: int)
    requires Flags(b.thread, at) && !b.thread.aiEnabled
    ensures var close := Update(Change(Some(Closed), None, false, None, false), at);
      var reopen := Update(Change(Some(Open), None, false, None, false), at);
      !Flags(Run(b, [Sweep(at, None), close, reopen, Inbound(inb)], sla).thread, now)
  {
    var close := Update(Change(Some(Closed), None, false, None, false), at);
    var reopen := Update(Change(Some(Open), None, false, None, false), at);
    var ops := [Sweep(at, None), close, reopen, Inbound(inb)];
    var b1 := Step(b, ops[0], sla);
    var b2 := Step(b1, close, sla);
    var b3 := Step(b2, reopen, sla);
    assert b3.thread.breached && !b3.thread.aiEnabled;
    assert ops[1..] == [close, reopen, Inbound(inb)];
    assert ops[1..][1..] == [reopen, Inbound(inb)];
    assert Run(b3, [Inbound(inb)], sla) == Step(b3, Inbound(inb), sla);
    assert Run(b2, [reopen, Inbound(inb)], sla) == Run(b3, [reopen, Inbound(inb)][1..], sla);
  }
}
