/** The outbound dialler's jobs and the steps that change them (apps/api/parlio_api/outbound.py). */
module Outbound {
  import opened Wrappers
  import opened Clock
  import opened CallingWindow
  import Phone

  datatype Purpose = LeadFollowup | TicketCallback | Reminder | Confirmation | NoShow | ReviewRequest

  datatype Status = Scheduled | Dialing | InProgress | Completed | Retry | Exhausted | Suppressed | Cancelled | Failed
  {
    /** Waiting to be dialled. */
    predicate Pending() {
      this == Scheduled || this == Retry
    }

    /** Handed to the dialler. */
    predicate Active() {
      this == Dialing || this == InProgress
    }

    predicate Terminal() {
      !Pending() && !Active()
    }
  }

  datatype Outcome =
    | Qualified | Booked | Ticketed | Resolved | Confirmed | Rescheduled | NotInterested | CallbackLater
    | WrongNumber | OptOut | Voicemail | NoAnswer | Busy | DialFailed | Unknown

  const NO_CONTACT := {Voicemail, NoAnswer, Busy, DialFailed}
  const TERMINAL_CONTACT := {Qualified, Booked, Ticketed, Resolved, Confirmed, Rescheduled, NotInterested, WrongNumber, OptOut}

  /** Call ids of the built-in diallers name the job and the attempt; other diallers' do not. */
  datatype CallId = OfJob(job: int, n: int) | Foreign(name: string)

  datatype Attempt = Attempt(n: nat, at: int, callId: Option<CallId>, outcome: Outcome)

  datatype Job = Job(purpose: Purpose, to: string, scheduledAt: int, notAfter: Option<int>, status: Status,
                     attempts: seq<Attempt>, maxAttempts: int, callId: Option<CallId>, outcome: Option<Outcome>,
                     hasTicket: bool, completedAt: Option<int>)
  {
    function Last(): Attempt
      requires attempts != []
    {
      attempts[|attempts| - 1]
    }

    function WithLast(o: Outcome): Job {
      if attempts == [] then this
      else this.(attempts := attempts[..|attempts| - 1] + [Last().(outcome := o)])
    }
  }

  datatype Policy = Policy(enabled: bool, purposes: set<Purpose>, hours: CallingHours, maxAttempts: int,
                           retryGapMin: int, dailyCap: int, requireConsent: bool, staleDialMin: int)
  {
    predicate Allows(purpose: Purpose) {
      enabled && purpose in purposes
    }
  }

  /** One tenant's dialler: jobs in order of creation, normalised numbers not to be called, the rules. */
  datatype Desk = Desk(jobs: seq<Job>, doNotCall: set<string>, policy: Policy) {
    predicate IsSuppressed(phone: string) {
      Phone.Normalise(phone) in doNotCall
    }

    function Save(i: nat, j: Job): Desk
      requires i < |jobs|
    {
      this.(jobs := jobs[i := j])
    }
  }

  /** How many of its newest jobs a desk's listing shows, and how many of all desks' a scan shows. */
  const LIST_LIMIT := 500
  const SCAN_LIMIT := 5000

  function Newest<T>(s: seq<T>, limit: nat): seq<T> {
    if |s| <= limit then s else s[|s| - limit..]
  }

  /** Attempts placed at instants from `lo` to `hi` inclusive. */
  function AttemptsIn(attempts: seq<Attempt>, lo: int, hi: int): nat {
    if attempts == [] then 0
    else (if lo <= attempts[0].at <= hi then 1 else 0) + AttemptsIn(attempts[1..], lo, hi)
  }

  function CallsIn(jobs: seq<Job>, to: string, lo: int, hi: int): nat {
    if jobs == [] then 0
    else (if jobs[0].to == to then AttemptsIn(jobs[0].attempts, lo, hi) else 0) + CallsIn(jobs[1..], to, lo, hi)
  }

  function AttemptsSince(attempts: seq<Attempt>, lo: int): nat {
    if attempts == [] then 0
    else (if lo <= attempts[0].at then 1 else 0) + AttemptsSince(attempts[1..], lo)
  }

  function CallsSince(jobs: seq<Job>, to: string, lo: int): nat {
    if jobs == [] then 0
    else (if jobs[0].to == to then AttemptsSince(jobs[0].attempts, lo) else 0) + CallsSince(jobs[1..], to, lo)
  }

  function DailyCount(d: Desk, to: string, now: int): nat {
    CallsSince(Newest(d.jobs, LIST_LIMIT), to, now - DAY)
  }

  // -- steps -----------------------------------------------------------------------------------

  /** Puts a number on the do-not-call list and drops its waiting jobs (those the listing shows). */
  function Suppress(d: Desk, phone: string): Desk {
    var n := Phone.Normalise(phone);
    d.(doNotCall := d.doNotCall + {n},
       jobs := seq(|d.jobs|, i requires 0 <= i < |d.jobs| => Dropped(d.jobs[i], n, i >= |d.jobs| - LIST_LIMIT)))
  }

  function Dropped(j: Job, n: string, listed: bool): Job {
    if listed && j.to == n && j.status.Pending() then j.(status := Suppressed) else j
  }

  /** A request for a call; `when` is None for "now". */
  datatype Ask = Ask(purpose: Purpose, to: string, when: Option<int>, notAfter: Option<int>, hasTicket: bool,
                     consent: bool, assistant: bool, blocked: bool)

  /** The job a request becomes; None when an exception leaves nothing stored. */
  function NewJob(d: Desk, ask: Ask, now: int): Option<Job> {
    var p, to := d.policy, Phone.Normalise(ask.to);
    var j := Job(ask.purpose, to, if ask.when.Some? then ask.when.value else now, ask.notAfter, Scheduled, [],
                 p.maxAttempts, None, None, ask.hasTicket, None);
    if !ask.assistant then None
    else if !p.Allows(ask.purpose) then Some(j.(status := Cancelled))
    else if d.IsSuppressed(to) || ask.blocked then Some(j.(status := Suppressed))
    else if p.requireConsent && !ask.consent && ask.purpose == LeadFollowup then Some(j.(status := Cancelled))
    else if Phone.JurisdictionFor(to).None? then Some(j.(status := Cancelled))
    else
      match NextWindow(p.hours, j.scheduledAt)
      case None => None
      case Some(at) =>
        if j.notAfter.Some? && at > j.notAfter.value then Some(j.(scheduledAt := at, status := Cancelled))
        else Some(j.(scheduledAt := at))
  }

  /** What the gates at dial time decide. */
  datatype Verdict = Close(status: Status) | Defer(at: int) | Raises | Dial

  function Gate(d: Desk, j: Job, now: int, manual: bool, assistant: bool): Verdict {
    var p := d.policy;
    if j.notAfter.Some? && now > j.notAfter.value then Close(Cancelled)
    else if d.IsSuppressed(j.to) then Close(Suppressed)
    else if !p.enabled then Defer(now + p.retryGapMin * MINUTE)
    else if !manual && !p.hours.InWindow(now) then DeferTo(NextWindow(p.hours, now))
    else if !manual && DailyCount(d, j.to, now) >= p.dailyCap then DeferTo(NextWindow(p.hours, now + DAY))
    else if !assistant then Close(Failed)
    else Dial
  }

  function DeferTo(at: Option<int>): Verdict {
    if at.Some? then Defer(at.value) else Raises
  }

  /** A job after an attempt ended in `outcome`; None when no calling window can be found. */
  function Settle(p: Policy, j: Job, outcome: Outcome, now: int): Option<Job> {
    var j := j.(outcome := Some(outcome));
    if outcome in NO_CONTACT && |j.attempts| < j.maxAttempts then
      match NextWindow(p.hours, now + p.retryGapMin * MINUTE)
      case None => None
      case Some(at) =>
        if j.notAfter.Some? && at > j.notAfter.value
        then Some(j.(scheduledAt := at, status := Exhausted, completedAt := Some(now)))
        else Some(j.(scheduledAt := at, status := Retry))
    else if outcome in NO_CONTACT then Some(j.(status := Exhausted, completedAt := Some(now)))
    else Some(j.(status := Completed, completedAt := Some(now)))
  }

  /** Stores the settled job; a person who opts out, or a wrong number, is not called again. */
  function AfterAttempt(d: Desk, i: nat, j: Job, outcome: Outcome, now: int): Desk
    requires i < |d.jobs|
  {
    match Settle(d.policy, j, outcome, now)
    case None => d
    case Some(settled) =>
      var d := d.Save(i, settled);
      if outcome == OptOut || outcome == WrongNumber then Suppress(d, j.to) else d
  }

  /** `placed` is the dialler's call id, or None when dialling failed. */
  function Dispatch(d: Desk, i: nat, now: int, manual: bool, assistant: bool, placed: Option<CallId>): Desk
    requires i < |d.jobs|
  {
    var j := d.jobs[i];
    match Gate(d, j, now, manual, assistant)
    case Close(status) => d.Save(i, j.(status := status))
    case Defer(at) => d.Save(i, j.(scheduledAt := at))
    case Raises => d
    case Dial =>
      var n := |j.attempts| + 1;
      (match placed
       case None => AfterAttempt(d, i, j.(attempts := j.attempts + [Attempt(n, now, None, DialFailed)]), DialFailed, now)
       case Some(id) => d.Save(i, j.(attempts := j.attempts + [Attempt(n, now, Some(id), Unknown)],
                                     callId := Some(id), status := Dialing)))
  }

  predicate IsStale(d: Desk, j: Job, now: int) {
    j.status.Active() && j.attempts != [] && now - j.Last().at >= d.policy.staleDialMin * MINUTE
  }

  function ExpireOne(d: Desk, i: nat, now: int): Desk
    requires i < |d.jobs|
  {
    if IsStale(d, d.jobs[i], now) then AfterAttempt(d, i, d.jobs[i].WithLast(DialFailed), DialFailed, now) else d
  }

  /** The newest job whose last call carries a foreign id, when a scan shows the `shown` newest. */
  function NewestWith(jobs: seq<Job>, id: CallId, shown: nat, k: nat): (r: Option<nat>)
    requires k <= |jobs|
    ensures r.Some? ==> r.value < |jobs|
  {
    if k == 0 then None
    else if jobs[k - 1].callId == Some(id) && k - 1 >= |jobs| - shown then Some(k - 1)
    else NewestWith(jobs, id, shown, k - 1)
  }

  /** The attempt number in a call id plays no part in finding its job. */
  function JobOf(d: Desk, id: CallId, shown: nat): (r: Option<nat>)
    ensures r.Some? ==> r.value < |d.jobs|
  {
    match id
    case OfJob(job, _) => if 0 <= job < |d.jobs| then Some(job) else None
    case Foreign(_) => NewestWith(d.jobs, id, shown, |d.jobs|)
  }

  function CallStarted(d: Desk, id: CallId, shown: nat): Desk {
    match JobOf(d, id, shown)
    case None => d
    case Some(i) => if d.jobs[i].status == Dialing then d.Save(i, d.jobs[i].(status := InProgress)) else d
  }

  /** `reported` is the outcome read from the call record, used unless one was recorded mid-call. */
  function CallEnded(d: Desk, id: CallId, shown: nat, reported: Outcome, raisedTicket: bool, at: int): Desk {
    match JobOf(d, id, shown)
    case None => d
    case Some(i) =>
      var j := d.jobs[i];
      if !j.status.Active() then d
      else
        var outcome := if j.attempts != [] && j.Last().outcome != Unknown then j.Last().outcome else reported;
        var final := if raisedTicket && outcome !in TERMINAL_CONTACT && !j.hasTicket then Ticketed else outcome;
        AfterAttempt(d, i, j.WithLast(outcome), final, at)
  }

  /** The assistant records an outcome while the call is still going on. */
  function WorkerOutcome(d: Desk, i: nat, o: Outcome): Desk
    requires i < |d.jobs|
  {
    var j := d.jobs[i];
    var d := d.Save(i, j.WithLast(o).(outcome := Some(o)));
    if o == OptOut then Suppress(d, j.to) else d
  }

  datatype Op =
    | ScheduleOp(ask: Ask, now: int)
    | DispatchOp(i: nat, now: int, manual: bool, assistant: bool, placed: Option<CallId>)
    | ExpireOp(i: nat, now: int)
    | StartedOp(id: CallId, shown: nat)
    | EndedOp(id: CallId, shown: nat, reported: Outcome, raisedTicket: bool, at: int)
    | OutcomeOp(i: nat, o: Outcome)
    | CancelOp(i: nat)
    | SuppressOp(phone: string)
    | UnsuppressOp(phone: string)
    | PolicyOp(policy: Policy)

  /** Dispatching is only asked for waiting jobs; every other request may come at any time. */
  function Step(d: Desk, op: Op): Desk {
    match op
    case ScheduleOp(ask, now) =>
      (match NewJob(d, ask, now) case None => d case Some(j) => d.(jobs := d.jobs + [j]))
    case DispatchOp(i, now, manual, assistant, placed) =>
      if i < |d.jobs| && d.jobs[i].status.Pending() then Dispatch(d, i, now, manual, assistant, placed) else d
    case ExpireOp(i, now) => if i < |d.jobs| then ExpireOne(d, i, now) else d
    case StartedOp(id, shown) => CallStarted(d, id, shown)
    case EndedOp(id, shown, reported, raisedTicket, at) => CallEnded(d, id, shown, reported, raisedTicket, at)
    case OutcomeOp(i, o) => if i < |d.jobs| then WorkerOutcome(d, i, o) else d
    case CancelOp(i) =>
      if i < |d.jobs| && d.jobs[i].status.Pending() then d.Save(i, d.jobs[i].(status := Cancelled)) else d
    case SuppressOp(phone) => Suppress(d, phone)
    case UnsuppressOp(phone) => d.(doNotCall := d.doNotCall - {Phone.Normalise(phone)})
    case PolicyOp(policy) => d.(policy := policy)
  }

  function Run(d: Desk, ops: seq<Op>): Desk
    decreases |ops|
  {
    if ops == [] then d else Run(Step(d, ops[0]), ops[1..])
  }
}
