/** The live-call registry and its bounded fan-out to dashboards (apps/api/parlio_api/live.py). */
module LiveHub {
  import Ordered
  import opened Wrappers

  // -- one subscriber's queue, on values --------------------------------------------------------

  /** A bounded queue is full at its size; a size of zero or less means no bound. */
  predicate Full(length: nat, max: int) {
    0 < max <= length
  }

  /** Adding to a full queue drops its oldest entry. */
  function Push<T>(items: seq<T>, m: T, max: int): seq<T> {
    (if Full(|items|, max) then items[1..] else items) + [m]
  }

  datatype FeedOp<T> = Offer(m: T) | Take

  /** What is queued and what has been taken, with everything ever offered. */
  datatype Feeding<T> = Feeding(offered: seq<T>, items: seq<T>, taken: seq<T>)

  function FeedStep<T>(f: Feeding<T>, op: FeedOp<T>, max: int): Feeding<T> {
    match op
    case Offer(m) => Feeding(f.offered + [m], Push(f.items, m, max), f.taken)
    case Take => if f.items == [] then f else Feeding(f.offered, f.items[1..], f.taken + [f.items[0]])
  }

  function FeedRun<T>(f: Feeding<T>, ops: seq<FeedOp<T>>, max: int): Feeding<T>
    decreases |ops|
  {
    if ops == [] then f else FeedRun(FeedStep(f, ops[0], max), ops[1..], max)
  }

  /** `s` can be picked out of `t` at increasing places, given by `at`. */
  ghost predicate PickedAt<T>(s: seq<T>, t: seq<T>, at: seq<nat>) {
    && |at| == |s|
    && (forall i, j | 0 <= i < j < |at| :: at[i] < at[j])
    && (forall i | 0 <= i < |at| :: at[i] < |t| && t[at[i]] == s[i])
  }

  /** The queue is the last few messages offered; those taken came before them, in order. */
  ghost predicate FeedOk<T>(f: Feeding<T>, max: int, at: seq<nat>) {
    && |f.items| <= |f.offered| && f.items == f.offered[|f.offered| - |f.items|..]
    && (0 < max ==> |f.items| <= max)
    && PickedAt(f.taken, f.offered, at)
    && (at != [] ==> at[|at| - 1] < |f.offered| - |f.items|)
  }

  lemma OfferKeeps<T>(f: Feeding<T>, m: T, max: int, at: seq<nat>)
    requires FeedOk(f, max, at)
    ensures FeedOk(FeedStep(f, Offer(m), max), max, at)
  {
  }

  lemma TakeKeeps<T>(f: Feeding<T>, max: int, at: seq<nat>) returns (next: seq<nat>)
    requires FeedOk(f, max, at)
    ensures FeedOk(FeedStep(f, Take, max), max, next)
  {
    if f.items == [] {
      return at;
    }
    next := at + [|f.offered| - |f.items|];
  }

  /**
   However offering and taking interleave, the queue is a contiguous suffix of what was offered, of
   bounded length, and a slow reader receives some of the messages, in order and none of them twice.
   */
  lemma {:induction false} FeedRunKeeps<T>(f: Feeding<T>, ops: seq<FeedOp<T>>, max: int, at: seq<nat>) returns (end: seq<nat>)
    requires FeedOk(f, max, at)
    ensures FeedOk(FeedRun(f, ops, max), max, end)
    decreases |ops|
  {
    if ops == [] {
      return at;
    }
    var next := at;
    if ops[0].Take? {
      next := TakeKeeps(f, max, at);
    } else {
      OfferKeeps(f, ops[0].m, max, at);
    }
    end := FeedRunKeeps(FeedStep(f, ops[0], max), ops[1..], max, next);
  }

  /** Only a full queue loses a message, and then just the oldest. */
  lemma OnlyFullQueuesDrop<T>(items: seq<T>, m: T, max: int)
    ensures Push(items, m, max) == if 0 < max <= |items| then items[1..] + [m] else items + [m]
  {
  }

  function Offers<T>(ops: seq<FeedOp<T>>): nat {
    if ops == [] then 0 else (if ops[0].Offer? then 1 else 0) + Offers(ops[1..])
  }

  /** A reader misses nothing of a queue that is offered no more than it can hold, or that has no bound. */
  lemma {:induction false} NothingMissed<T>(f: Feeding<T>, ops: seq<FeedOp<T>>, max: int)
    requires f.taken + f.items == f.offered && (max <= 0 || |f.offered| + Offers(ops) <= max)
    ensures var g := FeedRun(f, ops, max); g.taken + g.items == g.offered && |g.offered| == |f.offered| + Offers(ops)
    decreases |ops|
  {
    if ops != [] {
      NothingMissed(FeedStep(f, ops[0], max), ops[1..], max);
    }
  }

  // -- which calls are live ----------------------------------------------------------------------

  const REMEMBERED: nat := 1000

  datatype Registry = Registry(live: set<string>, ended: seq<string>)

  /** A bounded deque forgets from the front. */
  function Remember(ended: seq<string>, id: string): seq<string> {
    if |ended| < REMEMBERED then ended + [id] else (ended + [id])[1..]
  }

  datatype Signal = Ended(id: string) | Other(id: string)

  function Signalled(r: Registry, s: Signal): Registry {
    match s
    case Ended(id) => Registry(r.live - {id}, Remember(r.ended, id))
    case Other(id) => if id in r.ended then r else r.(live := r.live + {id})
  }

  function SignalRun(r: Registry, signals: seq<Signal>): Registry
    decreases |signals|
  {
    if signals == [] then r else SignalRun(Signalled(r, signals[0]), signals[1..])
  }

  ghost predicate Apart(r: Registry) {
    |r.ended| <= REMEMBERED && forall id | id in r.ended :: id !in r.live
  }

  lemma SignalledApart(r: Registry, s: Signal)
    requires Apart(r)
    ensures Apart(Signalled(r, s))
  {
  }

  lemma {:induction false} SignalRunApart(r: Registry, signals: seq<Signal>)
    requires Apart(r)
    ensures Apart(SignalRun(r, signals))
    decreases |signals|
  {
    if signals != [] {
      SignalledApart(r, signals[0]);
      SignalRunApart(Signalled(r, signals[0]), signals[1..]);
    }
  }

  function Ends(signals: seq<Signal>): nat {
    if signals == [] then 0 else (if signals[0].Ended? then 1 else 0) + Ends(signals[1..])
  }

  ghost predicate RememberedAt(r: Registry, id: string, at: int) {
    0 <= at < |r.ended| && r.ended[at] == id
  }

  /** While fewer than a thousand further calls end, nothing revives an ended call. */
  lemma {:induction false} EndedStaysEnded(r: Registry, id: string, at: int, signals: seq<Signal>)
    requires Apart(r) && RememberedAt(r, id, at)
    requires |r.ended| - at + Ends(signals) <= REMEMBERED
    ensures id in SignalRun(r, signals).ended && id !in SignalRun(r, signals).live
    decreases |signals|
  {
    if signals != [] {
      var next := Signalled(r, signals[0]);
      SignalledApart(r, signals[0]);
      var shift := if signals[0].Ended? && |r.ended| == REMEMBERED then 1 else 0;
      assert RememberedAt(next, id, at - shift);
      EndedStaysEnded(next, id, at - shift, signals[1..]);
    }
  }

  /** After a call ends, `others` end in turn. */
  function EndAll(r: Registry, others: seq<string>): Registry
    decreases |others|
  {
    if others == [] then r else EndAll(Signalled(r, Ended(others[0])), others[1..])
  }

  /** The bound is exact: a late event revives the call once a thousand others have ended since. */
  lemma LateEventRevives(r: Registry, id: string, others: seq<string>)
    requires Apart(r) && id !in others && id !in r.ended
    ensures id in Signalled(EndAll(Signalled(r, Ended(id)), others), Other(id)).live <==> REMEMBERED <= |others|
  {
    var start := Signalled(r, Ended(id));
    assert id !in r.ended;
    OnlyPlace(start, id, |start.ended| - 1, others);
  }

  lemma {:induction false} OnlyPlace(r: Registry, id: string, at: int, others: seq<string>)
    requires |r.ended| <= REMEMBERED && id !in r.live && id !in others
    requires forall i | 0 <= i < |r.ended| :: r.ended[i] == id <==> i == at
    requires 0 <= at ==> at < |r.ended|
    ensures id in EndAll(r, others).ended <==>
      0 <= at && |others| < REMEMBERED - (|r.ended| - 1 - at)
    ensures id !in EndAll(r, others).live
    decreases |others|
  {
    if others == [] {
      if 0 <= at {
        assert r.ended[at] == id;
      }
    } else {
      var next := Signalled(r, Ended(others[0]));
      var shift := if |r.ended| < REMEMBERED then 0 else 1;
      var now := if 0 <= at then at - shift else at;
      assert others[0] in others;
      assert forall i | 0 <= i < |next.ended| - 1 :: next.ended[i] == r.ended[i + shift];
      OnlyPlace(next, id, now, others[1..]);
    }
  }

  // -- the hub ---------------------------------------------------------------------------------

  datatype CallStatus = Ringing | InProgress | Transferring

  datatype Line = Line(role: string, text: string, at: int)

  /** What a worker puts into an event; fields that do not belong to its kind are None. */
  datatype Payload = Payload(room: Option<string>, caller: Option<string>, dialed: Option<string>, direction: Option<string>,
                             role: string, text: Option<string>, cmd: string, author: string, reason: Option<string>)

  datatype LiveCall = LiveCall(
    tenant: string, startedAt: int, room: Option<string>, caller: Option<string>, dialed: Option<string>,
    direction: string, status: CallStatus, answeredAt: Option<int>, transcript: seq<Line>,
    transfers: nat, tickets: nat, escalated: bool)

  datatype EventKind = Started | Answered | TranscriptItem | Supervisor | TransferStarted | TransferCompleted
                     | TicketCreated | Escalation | Otherwise | CallEnded | CallFailed

  datatype CallEvent = CallEvent(kind: EventKind, id: string, tenant: string, at: int, payload: Payload) {
    predicate Ends() {
      kind == CallEnded || kind == CallFailed
    }

    predicate Speaks() {
      kind == TranscriptItem || kind == Supervisor
    }

    function Signal(): Signal {
      if Ends() then Ended(id) else Other(id)
    }

    /** The line an event adds to the transcript. */
    function Said(): Line {
      if kind == Supervisor then
        Line("supervisor", if payload.text.Some? && payload.text.value != "" then payload.text.value
                           else "[" + payload.cmd + " by " + payload.author + "]", at)
      else Line(payload.role, if payload.text.Some? then payload.text.value else "", at)
    }

    /** What of the payload travels on to the dashboards. */
    function Carries(): Carried {
      if Ends() then Reason(payload.reason) else if Speaks() then Whole(payload) else Nothing
    }
  }

  datatype Carried = Nothing | Whole(payload: Payload) | Reason(reason: Option<string>)

  type Calls = map<string, LiveCall>

  const TRANSCRIPT_TAIL: nat := 200

  function Last<T>(s: seq<T>, n: nat): seq<T> {
    if |s| <= n then s else s[|s| - n..]
  }

  function Tail<T>(s: seq<T>): seq<T> {
    Last(s, TRANSCRIPT_TAIL)
  }

  function Applied(c: LiveCall, e: CallEvent): LiveCall {
    match e.kind
    case Started =>
      c.(caller := e.payload.caller, dialed := e.payload.dialed, room := e.payload.room,
         direction := if e.payload.direction.Some? then e.payload.direction.value else "inbound")
    case Answered => c.(status := InProgress, answeredAt := Some(e.at))
    case TranscriptItem => c.(transcript := Tail(c.transcript + [e.Said()]))
    case Supervisor => c.(transcript := c.transcript + [e.Said()])
    case TransferStarted => c.(status := Transferring)
    case TransferCompleted => c.(status := InProgress, transfers := c.transfers + 1)
    case TicketCreated => c.(tickets := c.tickets + 1)
    case Escalation => c.(escalated := true)
    case _ => c
  }

  function AppliedAll(c: LiveCall, events: seq<CallEvent>): LiveCall
    decreases |events|
  {
    if events == [] then c else Applied(AppliedAll(c, events[..|events| - 1]), events[|events| - 1])
  }

  /** All that is said in the course of some events. */
  function Lines(events: seq<CallEvent>): seq<Line> {
    if events == [] then [] else Lines(events[..|events| - 1]) + Adds(events[|events| - 1])
  }

  function Adds(e: CallEvent): seq<Line> {
    if e.Speaks() then [e.Said()] else []
  }

  /** Supervisors' lines since the last transcript item. */
  function Since(events: seq<CallEvent>): nat {
    if events == [] then 0
    else
      SinceNext(Since(events[..|events| - 1]), events[|events| - 1])
  }

  function SinceNext(since: nat, e: CallEvent): nat {
    if e.kind == TranscriptItem then 0 else if e.kind == Supervisor then since + 1 else since
  }

  /**
   The transcript is cut when an item is added, but not when a supervisor speaks: over any events of
   a call it is the last two hundred lines said, and as many more as supervisors have added since.
   */
  lemma {:induction false} TranscriptSoFar(c: LiveCall, events: seq<CallEvent>)
    requires c.transcript == []
    ensures AppliedAll(c, events).transcript == Last(Lines(events), TRANSCRIPT_TAIL + Since(events))
  {
    if events != [] {
      var front, e := events[..|events| - 1], events[|events| - 1];
      TranscriptSoFar(c, front);
      SaidNext(AppliedAll(c, front), Lines(front), Since(front), e);
    }
  }

  lemma SaidNext(c: LiveCall, said: seq<Line>, since: nat, e: CallEvent)
    requires c.transcript == Last(said, TRANSCRIPT_TAIL + since)
    ensures Applied(c, e).transcript == Last(said + Adds(e), TRANSCRIPT_TAIL + SinceNext(since, e))
  {
    LastGrows(said, e.Said(), TRANSCRIPT_TAIL + since);
    if !e.Speaks() {
      assert said + Adds(e) == said;
    }
  }

  /** So it is the last two hundred lines exactly when no more were said, or no supervisor spoke since the last item. */
  lemma TranscriptIsTail(c: LiveCall, events: seq<CallEvent>)
    requires c.transcript == []
    ensures AppliedAll(c, events).transcript == Tail(Lines(events))
            <==> |Lines(events)| <= TRANSCRIPT_TAIL || Since(events) == 0
  {
    TranscriptSoFar(c, events);
  }

  /** For example: two hundred items and a word from a supervisor make two hundred and one lines. */
  lemma OneLineTooMany(c: LiveCall, items: seq<CallEvent>, e: CallEvent)
    requires c.transcript == [] && |items| == TRANSCRIPT_TAIL && e.kind == Supervisor
    requires forall i | 0 <= i < |items| :: items[i].kind == TranscriptItem
    ensures |AppliedAll(c, items + [e]).transcript| == TRANSCRIPT_TAIL + 1
  {
    TranscriptSoFar(c, items + [e]);
    assert (items + [e])[..|items|] == items;
    AllSpoken(items);
  }

  lemma {:induction false} AllSpoken(items: seq<CallEvent>)
    requires forall i | 0 <= i < |items| :: items[i].kind == TranscriptItem
    ensures |Lines(items)| == |items|
  {
    if items != [] {
      AllSpoken(items[..|items| - 1]);
    }
  }

  lemma LastGrows<T>(s: seq<T>, x: T, n: nat)
    requires TRANSCRIPT_TAIL <= n
    ensures Last(s, n) + [x] == Last(s + [x], n + 1)
    ensures Tail(Last(s, n) + [x]) == Tail(s + [x])
  {
    var t := s + [x];
    if |s| > n {
      assert t[|t| - (n + 1)..] == s[|s| - n..] + [x];
    }
    LastOfLast(t, n + 1, TRANSCRIPT_TAIL);
  }

  lemma LastOfLast<T>(s: seq<T>, n: nat, m: nat)
    requires m <= n
    ensures Last(Last(s, n), m) == Last(s, m)
  {
    if |s| > n {
      assert s[|s| - n..][n - m..] == s[|s| - m..];
    }
  }

  /** The call as an event leaves it; a first event opens it. */
  function Folded(calls: Calls, e: CallEvent): LiveCall {
    var call := if e.id in calls then calls[e.id]
                else LiveCall(e.tenant, e.at, None, None, None, "inbound", Ringing, None, [], 0, 0, false);
    if e.Ends() then call else Applied(call, e)
  }

  function ActiveOf(calls: Calls, tenant: string): Calls {
    map id | id in calls && calls[id].tenant == tenant :: calls[id]
  }

  /** A snapshot holds all of the tenant's live calls and nobody else's. */
  lemma SnapshotIsOwn(calls: Calls, tenant: string)
    ensures forall id :: id in ActiveOf(calls, tenant) <==> id in calls && calls[id].tenant == tenant
    ensures forall id | id in ActiveOf(calls, tenant) :: ActiveOf(calls, tenant)[id] == calls[id]
  {
  }

  // -- what an event tells ---------------------------------------------------------------------------

  /** The first event of a call opens it, ringing, for the tenant and at the time it names. */
  lemma FirstEventOpens(calls: Calls, e: CallEvent)
    requires e.id !in calls && !e.Ends()
    ensures var c := Folded(calls, e);
      && c.tenant == e.tenant && c.startedAt == e.at
      && (e.kind == TicketCreated || e.kind == Escalation || e.kind == Otherwise || e.Speaks() ==>
            c.status == Ringing && c.answeredAt == None && c.caller == None && c.direction == "inbound")
      && c.transfers == (if e.kind == TransferCompleted then 1 else 0)
      && c.tickets == (if e.kind == TicketCreated then 1 else 0)
      && c.escalated == (e.kind == Escalation)
  {
  }

  /** An event of a known call is folded into that one, and its end leaves it as it was. */
  lemma EventMeetsItsCall(calls: Calls, e: CallEvent)
    requires e.id in calls
    ensures Folded(calls, e) == if e.Ends() then calls[e.id] else Applied(calls[e.id], e)
  {
  }

  /** Each event tells one thing of its call and leaves the rest; that of a known call keeps tenant and start. */
  lemma EventTellsOneThing(c: LiveCall, e: CallEvent)
    ensures var d := Applied(c, e);
      && d.tenant == c.tenant && d.startedAt == c.startedAt
      && (e.kind == Started ==>
            && d.caller == e.payload.caller && d.dialed == e.payload.dialed && d.room == e.payload.room
            && (match e.payload.direction case Some(way) => d.direction == way case None => d.direction == "inbound"))
      && (e.kind != Started ==>
            d.caller == c.caller && d.dialed == c.dialed && d.room == c.room && d.direction == c.direction)
      && (d.status == if e.kind == Answered || e.kind == TransferCompleted then InProgress
                      else if e.kind == TransferStarted then Transferring else c.status)
      && (d.answeredAt == if e.kind == Answered then Some(e.at) else c.answeredAt)
      && (!e.Speaks() ==> d.transcript == c.transcript)
  {
  }

  /** How many of some events are of a kind. */
  function Told(events: seq<CallEvent>, kind: EventKind): nat {
    if events == [] then 0 else Told(events[..|events| - 1], kind) + (if events[|events| - 1].kind == kind then 1 else 0)
  }

  /** Over any events of a call, its transfers, tickets and escalation are those told. */
  lemma {:induction false} CountersCount(c: LiveCall, events: seq<CallEvent>)
    ensures var d := AppliedAll(c, events);
      && d.transfers == c.transfers + Told(events, TransferCompleted)
      && d.tickets == c.tickets + Told(events, TicketCreated)
      && (d.escalated <==> c.escalated || 0 < Told(events, Escalation))
    decreases |events|
  {
    if events != [] {
      CountersCount(c, events[..|events| - 1]);
    }
  }

  /** A line is what was said, and by whom; a supervisor's command without words is named instead. */
  lemma LineSaysWhat(e: CallEvent)
    requires e.Speaks()
    ensures var words := if e.payload.text == None then "" else e.payload.text.value;
      && e.Said().at == e.at
      && (e.kind == TranscriptItem ==> e.Said().role == e.payload.role && e.Said().text == words)
      && (e.kind == Supervisor ==>
            && e.Said().role == "supervisor"
            && e.Said().text == if words != "" then words else "[" + e.payload.cmd + " by " + e.payload.author + "]")
  {
  }

  /** Dashboards are told the words of a line and the reason of an end, and of anything else just the call. */
  lemma CarriedExactly(e: CallEvent)
    ensures e.kind in {TranscriptItem, Supervisor} ==> e.Carries() == Whole(e.payload)
    ensures e.kind in {CallEnded, CallFailed} ==> e.Carries() == Reason(e.payload.reason)
    ensures e.kind !in {TranscriptItem, Supervisor, CallEnded, CallFailed} ==> e.Carries() == Nothing
  {
  }

  datatype Message = Snapshot(calls: Calls)
                   | Update(kind: EventKind, id: string, call: LiveCall, carried: Carried)

  class Feed {
    const max: int
    var items: seq<Message>
    /** Every message ever offered. */
    ghost var offered: seq<Message>

    constructor (max: int)
      ensures this.max == max && items == [] && offered == [] && Valid()
    {
      this.max, items, offered := max, [], [];
    }

    /** What is queued is the end of what was offered, within the bound. */
    ghost predicate Valid()
      reads this
    {
      && |items| <= |offered| && items == offered[|offered| - |items|..]
      && (0 < max ==> |items| <= max)
    }

    /** Drops the oldest message rather than make the sender wait. */
    method Put(m: Message)
      requires Valid()
      modifies this
      ensures Valid() && offered == old(offered) + [m] && items == Push(old(items), m, max)
    {
      if 0 < max <= |items| {
        items := items[1..];
      }
      items := items + [m];
      offered := offered + [m];
      assert items == Push(old(items), m, max);
      assert items == offered[|offered| - |items|..];
    }

    method Get() returns (m: Message)
      requires Valid() && items != []
      modifies this
      ensures Valid() && offered == old(offered) && items == old(items)[1..]
      ensures m == offered[|offered| - |old(items)|]
    {
      m := items[0];
      items := items[1..];
    }
  }

  method OfferAll(feeds: set<Feed>, m: Message)
    requires forall f | f in feeds :: f.Valid()
    modifies feeds
    ensures forall f | f in feeds ::
      f.Valid() && f.offered == old(f.offered) + [m] && f.items == Push(old(f.items), m, f.max)
  {
    var rest := feeds;
    while rest != {}
      invariant rest <= feeds
      invariant forall f | f in feeds && f !in rest ::
        f.Valid() && f.offered == old(f.offered) + [m] && f.items == Push(old(f.items), m, f.max)
      invariant forall f | f in rest :: f.Valid() && f.offered == old(f.offered) && f.items == old(f.items)
      decreases |rest|
    {
      ghost var some := Ordered.SomeMember(rest);
      var f :| f in rest;
      f.Put(m);
      rest := rest - {f};
    }
  }

  class LiveCallHub {
    const maxQueue: int
    var calls: Calls
    var ended: seq<string>
    var subs: map<string, set<Feed>>

    constructor (maxQueue: int)
      ensures this.maxQueue == maxQueue && Valid() && subs == map[] && calls == map[] && ended == []
    {
      this.maxQueue, calls, ended, subs := maxQueue, map[], [], map[];
    }

    ghost function State(): Registry
      reads this
    {
      Registry(calls.Keys, ended)
    }

    ghost function FeedsOf(tenant: string): set<Feed>
      reads this
    {
      if tenant in subs then subs[tenant] else {}
    }

    ghost function AllFeeds(): set<Feed>
      reads this
    {
      set t, f | t in subs && f in subs[t] :: f
    }

    ghost predicate Separate()
      reads this
    {
      forall t, u, f | t in subs && u in subs && f in subs[t] && f in subs[u] :: t == u
    }

    /** Live and remembered ended calls are apart, and no queue serves two tenants. */
    ghost predicate Valid()
      reads this, AllFeeds()
    {
      Apart(State()) && Separate() && forall f | f in AllFeeds() :: f.Valid() && f.max == maxQueue
    }

    /** Each of the tenant's queues is offered the message; by the frame, nobody else's is touched. */
    method Publish(tenant: string, m: Message)
      requires Valid()
      modifies FeedsOf(tenant)
      ensures Valid()
      ensures forall f | f in FeedsOf(tenant) ::
        f.offered == old(f.offered) + [m] && f.items == Push(old(f.items), m, f.max)
    {
      if tenant in subs {
        OfferAll(subs[tenant], m);
      }
    }

    /** A new queue starts with a snapshot of the tenant's live calls. */
    method Subscribe(tenant: string) returns (f: Feed)
      requires Valid()
      modifies this
      ensures Valid() && fresh(f) && FeedsOf(tenant) == old(FeedsOf(tenant)) + {f}
      ensures forall t | t != tenant :: FeedsOf(t) == old(FeedsOf(t))
      ensures ended == old(ended) && calls == old(calls)
      ensures f.max == maxQueue && f.items == f.offered == [Snapshot(ActiveOf(calls, tenant))]
    {
      f := new Feed(maxQueue);
      f.Put(Snapshot(ActiveOf(calls, tenant)));
      Enrol(tenant, f);
    }

    method Enrol(tenant: string, f: Feed)
      requires Valid() && f !in AllFeeds() && f.Valid() && f.max == maxQueue
      modifies this`subs
      ensures Valid() && FeedsOf(tenant) == old(FeedsOf(tenant)) + {f}
      ensures forall t | t != tenant :: FeedsOf(t) == old(FeedsOf(t))
    {
      subs := subs[tenant := (if tenant in subs then subs[tenant] else {}) + {f}];
      assert forall g | g in AllFeeds() :: g == f || g in old(AllFeeds());
    }

    method Unsubscribe(tenant: string, f: Feed)
      requires Valid()
      modifies this
      ensures Valid() && FeedsOf(tenant) == old(FeedsOf(tenant)) - {f}
      ensures forall t | t != tenant :: FeedsOf(t) == old(FeedsOf(t))
      ensures ended == old(ended) && calls == old(calls)
    {
      if tenant in subs {
        var left := subs[tenant] - {f};
        subs := if left == {} then subs - {tenant} else subs[tenant := left];
        assert forall g | g in AllFeeds() :: g in old(AllFeeds());
      }
    }

    /**
     Folds one worker event.  A late event, or the end of a call that is not live, reaches nobody; any
     other reaches exactly its own tenant's queues, once, with the call as the event leaves it.
     */
    method OnEvent(e: CallEvent)
      requires Valid()
      modifies this, FeedsOf(e.tenant)
      ensures Valid() && subs == old(subs)
      ensures State() == Signalled(old(State()), e.Signal())
      ensures calls == if e.Ends() then old(calls) - {e.id}
                       else if e.id in old(ended) then old(calls) else old(calls)[e.id := Folded(old(calls), e)]
      ensures forall f | f in FeedsOf(e.tenant) ::
        f.offered == old(f.offered)
          + (if (if e.Ends() then e.id in old(calls) else e.id !in old(ended)) then [Update(e.kind, e.id, Folded(old(calls), e), e.Carries())] else [])
      ensures forall f | f in FeedsOf(e.tenant) ::
        f.items == if (if e.Ends() then e.id in old(calls) else e.id !in old(ended))
                   then Push(old(f.items), Update(e.kind, e.id, Folded(old(calls), e), e.Carries()), f.max)
                   else old(f.items)
    {
      SignalledApart(State(), e.Signal());
      if e.Ends() {
        var known := e.id in calls;
        var call := Folded(calls, e);
        calls := calls - {e.id};
        ended := if |ended| < REMEMBERED then ended + [e.id] else (ended + [e.id])[1..];
        assert State() == Signalled(old(State()), e.Signal());
        if known {
          Publish(e.tenant, Update(e.kind, e.id, call, e.Carries()));
        }
        return;
      }
      if e.id in ended {
        return;
      }
      var call := Folded(calls, e);
      calls := calls[e.id := call];
      assert State() == Signalled(old(State()), e.Signal());
      Publish(e.tenant, Update(e.kind, e.id, call, e.Carries()));
    }
  }
}
