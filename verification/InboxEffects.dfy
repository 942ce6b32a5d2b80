/** What happens to a conversation, told without the functions that make it happen (apps/api/parlio_api/inbox.py). */
module InboxEffects {
  import opened Wrappers
  import opened Inbox

  /** The thread's own summary of its messages: count, preview and direction, which SummaryAgrees is about. */
  ghost predicate But(t: Thread, u: Thread) {
    u == t.(count := u.count, preview := u.preview, lastDirection := u.lastDirection)
  }

  /** A new conversation is open, with the assistant on and nobody assigned; nothing is unread, due or late. */
  lemma NewThreadIsOpen(who: Party)
    ensures var b := NewBox(who);
      && b.thread.Of() == who && b.thread.status == Open && b.thread.aiEnabled && b.thread.assignedTo == None
      && b.thread.unread == 0 && b.thread.slaDue == None && !b.thread.breached && b.thread.callback == None
      && b.log == [] && Agrees(b) && b.consulted == b.handoffs == b.callbacks == 0
  {
  }

  /** The preview is the message, or its first hundred and forty characters. */
  lemma PreviewIsPrefix(text: string)
    ensures Clip(text) <= text && |Clip(text)| == if |text| < 140 then |text| else 140
  {
  }

  /** A thread as a text finds it: open again if it was closed, with a deadline unless one runs already. */
  ghost function Waited(t: Thread, due: int): Thread {
    Thread(t.tenant, t.channel, t.identity, if t.status == Closed then Open else t.status, t.assignedTo, t.aiEnabled,
           t.callback, t.unread, t.count, t.preview, t.lastDirection,
           if t.slaDue == None then Some(due) else t.slaDue, t.breached)
  }

  /** A text that nobody answers at once is filed, unread, and waits for its deadline. */
  lemma TextWaits(b: Box, inb: Incoming, sla: int)
    requires !AnsweredAtOnce(b.thread, inb)
    ensures var v := Step(b, Inbound(inb), sla);
      && v.log == b.log + [Message(In, Contact, inb.name, inb.text, inb.at)]
      && But(Waited(b.thread, inb.at + sla).(unread := b.thread.unread + 1), v.thread)
      && v.consulted == b.consulted && v.handoffs == b.handoffs && v.callbacks == b.callbacks
  {
  }

  /** Who answers a text: a keyword's reply, a reminder's, or the assistant while it is on. */
  lemma AnsweredBy(t: Thread, inb: Incoming)
    ensures AnsweredAtOnce(t, inb) <==>
      || (t.channel == Sms && (inb.keywordReply != "" || inb.reminderReply != ""))
      || (inb.assistant != None && t.aiEnabled && t.channel in {Sms, Whatsapp, Webchat})
  {
  }

  /** A canned reply to a text message goes out after it: nothing is unread and nothing late any more. */
  lemma CannedReplyGoesOut(b: Box, inb: Incoming, sla: int, reply: string)
    requires b.thread.channel == Sms && reply != ""
    requires reply == if inb.keywordReply != "" then inb.keywordReply else inb.reminderReply
    ensures var v := Step(b, Inbound(inb), sla);
      && v.log == b.log + [Message(In, Contact, inb.name, inb.text, inb.at), Message(Out, Ai, inb.assistant, reply, inb.at)]
      && But(Waited(b.thread, 0).(unread := 0, slaDue := None, breached := false), v.thread)
      && v.consulted == b.consulted && v.handoffs == b.handoffs && v.callbacks == b.callbacks
  {
    var received := Received(b, inb, sla);
    assert received.log == b.log + [Message(In, Contact, inb.name, inb.text, inb.at)];
  }

  /** The assistant's reply goes out after the text and counts as one thing to read. */
  lemma AssistantReplies(b: Box, inb: Incoming, sla: int)
    requires Consults(b.thread, inb) && !inb.turn.handoff
    ensures var v := Step(b, Inbound(inb), sla);
      && v.log == b.log + [Message(In, Contact, inb.name, inb.text, inb.at),
                           Message(Out, Ai, inb.assistant, inb.turn.reply, inb.at)]
      && But(Waited(b.thread, 0).(unread := 1, slaDue := None, breached := false), v.thread)
      && v.consulted == b.consulted + 1 && v.handoffs == b.handoffs && v.callbacks == b.callbacks
  {
    var received := Received(b, inb, sla);
    assert received.log == b.log + [Message(In, Contact, inb.name, inb.text, inb.at)];
  }

  /**
   Handing over, the assistant replies, falls silent and leaves the thread waiting for a person, with a
   new deadline and the ticket it raised; a visitor of the web chat is told so.
   */
  lemma AssistantHandsOver(b: Box, inb: Incoming, sla: int)
    requires Consults(b.thread, inb) && inb.turn.handoff
    ensures var v := Step(b, Inbound(inb), sla);
      && v.log == b.log + [Message(In, Contact, inb.name, inb.text, inb.at),
                           Message(Out, Ai, inb.assistant, inb.turn.reply, inb.at)]
                        + (if b.thread.channel == Webchat
                           then [Message(Out, System, None, HandoffLine(inb.turn.department), inb.at)] else [])
      && But(b.thread.(status := Waiting, aiEnabled := false, callback := inb.turn.ticket, unread := 1,
                       slaDue := Some(inb.at + sla), breached := false), v.thread)
      && v.consulted == b.consulted + 1 && v.handoffs == b.handoffs + 1 && v.callbacks == b.callbacks
  {
    var received := Received(b, inb, sla);
    assert received.log == b.log + [Message(In, Contact, inb.name, inb.text, inb.at)];
    var spoken := Spoken(received, inb);
    assert spoken.log == b.log + [Message(In, Contact, inb.name, inb.text, inb.at),
                                  Message(Out, Ai, inb.assistant, inb.turn.reply, inb.at)];
  }

  /** The person is announced who has not been heard in what is shown, when the last word was not ours or somebody waits. */
  ghost predicate Joins(b: Box, who: string, seen: nat) {
    && b.thread.channel == Webchat
    && (b.thread.lastDirection != Some(Out) || b.thread.status == Waiting)
    && forall k | 0 <= k < |b.log| && |b.log| - seen <= k :: b.log[k].author != Agent || b.log[k].name != Some(who)
  }

  /** A person's reply goes out, silences the assistant and takes the thread, unless somebody else has it. */
  lemma PersonReplies(b: Box, who: string, shownAs: string, seen: nat, text: string, at: int, sla: int)
    ensures var v := Step(b, Reply(who, shownAs, seen, text, at), sla);
      && v.log == b.log + (if Joins(b, who, seen) then [Message(Out, System, None, shownAs + " has joined the chat.", at)] else [])
                        + [Message(Out, Agent, Some(who), text, at)]
      && But(b.thread.(status := Open, aiEnabled := false, unread := 0, slaDue := None, breached := false,
                       assignedTo := if b.thread.assignedTo.Some? then b.thread.assignedTo else Some(who)), v.thread)
      && v.consulted == b.consulted && v.handoffs == b.handoffs && v.callbacks == b.callbacks
  {
    var recent := Newest(b.log, seen);
    var cut := |b.log| - |recent|;
    assert forall k | 0 <= k < |recent| :: recent[k] == b.log[cut + k];
    if Joins(b, who, seen) {
      assert Joining(b, who, seen);
    } else if b.thread.channel == Webchat && (b.thread.lastDirection != Some(Out) || b.thread.status == Waiting) {
      var k :| 0 <= k < |b.log| && |b.log| - seen <= k && b.log[k].author == Agent && b.log[k].name == Some(who);
      assert recent[k - cut] in recent;
    }
  }

  /** A note is kept among the messages and changes nothing that the contact or a deadline depends on. */
  lemma NoteChangesNothing(b: Box, who: string, text: string, at: int, sla: int)
    ensures var v := Step(b, Jot(who, text, at), sla);
      && v.log == b.log + [Message(Note, Agent, Some(who), text, at)]
      && v.thread == b.thread.(count := b.thread.count + 1)
      && v.consulted == b.consulted && v.handoffs == b.handoffs && v.callbacks == b.callbacks
  {
  }

  /** A call is one more message: unread when it was missed; one we made answers everything. */
  lemma CallIsFiled(b: Box, inwards: bool, missed: bool, text: string, at: int, sla: int)
    ensures var v := Step(b, CallOver(inwards, missed, text, at), sla);
      && v.log == b.log + [Message(if inwards then In else Out, System, None, text, at)]
      && But(if inwards then b.thread.(unread := b.thread.unread + (if missed then 1 else 0))
             else b.thread.(unread := 0, slaDue := None, breached := false), v.thread)
      && v.consulted == b.consulted && v.handoffs == b.handoffs && v.callbacks == b.callbacks
  {
  }

  /** Closing closes: nothing is unread, no deadline runs, and a visitor of the web chat is told the first time. */
  lemma ClosingCloses(b: Box, c: Change, at: int, sla: int)
    requires c.status == Some(Closed)
    ensures var v := Step(b, Update(c, at), sla);
      && v.thread.status == Closed && v.thread.unread == 0 && v.thread.slaDue == None
      && v.log == b.log + (if b.thread.channel == Webchat && b.thread.status != Closed
                           then [Message(Out, System, None, CLOSING_LINE, at)] else [])
  {
  }

  /**
   An update sets what it is asked to and leaves the rest: the owner, the assistant (who brings a waiting
   thread back to open), whether it is read; only closing or opening changes more.
   */
  lemma UpdatedAsAsked(b: Box, c: Change, at: int, sla: int)
    ensures var t, v := b.thread, Step(b, Update(c, at), sla);
      var status := if c.status.Some? then c.status.value else t.status;
      && But(t.(status := if c.aiEnabled == Some(true) && status == Waiting then Open else status,
                assignedTo := if c.clearAssignee then None else if c.assignTo.Some? then c.assignTo else t.assignedTo,
                aiEnabled := if c.aiEnabled.Some? then c.aiEnabled.value else t.aiEnabled,
                unread := if c.read || c.status == Some(Closed) then 0 else t.unread,
                slaDue := if c.status == Some(Closed) then None else t.slaDue), v.thread)
      && (c.status != Some(Closed) ==> v.log == b.log && v.thread.count == t.count)
      && v.consulted == b.consulted && v.handoffs == b.handoffs && v.callbacks == b.callbacks
  {
  }

  /** A line for a visitor of the web chat answers nothing. */
  lemma LineAnswersNothing(b: Box, text: string, at: int)
    ensures var v := Announced(b, text, at);
      && v.log == b.log + (if b.thread.channel == Webchat then [Message(Out, System, None, text, at)] else [])
      && But(b.thread, v.thread)
      && v.consulted == b.consulted && v.handoffs == b.handoffs && v.callbacks == b.callbacks
  {
  }

  /** An open thread whose deadline has passed, and not marked yet. */
  ghost predicate Late(t: Thread, now: int) {
    t.status != Closed && !t.breached && t.slaDue.Some? && t.slaDue.value <= now
  }

  /** Somebody waits for a person, and no ticket says so. */
  ghost predicate NeedsCallback(t: Thread) {
    t.status == Waiting && !t.aiEnabled && t.callback == None
  }

  /** The sweep leaves alone what is not late. */
  lemma OnTimeIsLeft(b: Box, now: int, ticket: Option<string>, sla: int)
    requires !Late(b.thread, now)
    ensures Step(b, Sweep(now, ticket), sla) == b
  {
  }

  /** What is late is marked, and no more where no callback is needed or no ticket can be opened. */
  lemma LateIsMarked(b: Box, now: int, ticket: Option<string>, sla: int)
    requires Late(b.thread, now) && (ticket.None? || !NeedsCallback(b.thread))
    ensures Step(b, Sweep(now, ticket), sla) == b.(thread := b.thread.(breached := true))
  {
  }

  /** Otherwise a callback ticket is opened as well, and a visitor of the web chat is told its number. */
  lemma CallbackOpened(b: Box, now: int, ticket: string, sla: int)
    requires Late(b.thread, now) && NeedsCallback(b.thread)
    ensures var v := Step(b, Sweep(now, Some(ticket)), sla);
      && v.log == b.log + (if b.thread.channel == Webchat then [Message(Out, System, None, CallbackLine(ticket), now)] else [])
      && But(b.thread.(breached := true, callback := Some(ticket)), v.thread)
      && v.callbacks == b.callbacks + 1 && v.consulted == b.consulted && v.handoffs == b.handoffs
  {
    var late := b.thread.(breached := true);
    LineAnswersNothing(b.(thread := late.(callback := Some(ticket)), callbacks := b.callbacks + 1), CallbackLine(ticket), now);
  }
}
