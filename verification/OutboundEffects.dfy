/** What happens to a job, told without the functions that make it happen (apps/api/parlio_api/outbound.py). */
module OutboundEffects {
  import opened Wrappers
  import opened Clock
  import opened CallingWindow
  import opened Outbound
  import Phone

  /** `at` is the first instant from `from` on at which calls may be made. */
  ghost predicate FirstCallable(h: CallingHours, from: int, at: int) {
    from <= at && h.Callable(at) && forall u | from <= u < at :: !h.Callable(u)
  }

  /** There is time for a call from `from` on, before the deadline if there is one. */
  ghost predicate TimeLeft(h: CallingHours, from: int, notAfter: Option<int>) {
    notAfter.Some? ==> exists u | from <= u <= notAfter.value :: h.Callable(u)
  }

  lemma NextWindowIsFirst(h: CallingHours, from: int, notAfter: Option<int>)
    requires h.HasDay()
    ensures NextWindow(h, from).Some? && FirstCallable(h, from, NextWindow(h, from).value)
    ensures TimeLeft(h, from, notAfter) <==> (notAfter.Some? ==> NextWindow(h, from).value <= notAfter.value)
  {
    NextWindowIsLeast(h, from);
  }

  // -- scheduling ----------------------------------------------------------------------------------

  /** The policy and the lists let the call be planned; only the calling hours are left to ask. */
  ghost predicate Permitted(d: Desk, ask: Ask) {
    && d.policy.enabled && ask.purpose in d.policy.purposes
    && Phone.Normalise(ask.to) !in d.doNotCall && !ask.blocked
    && (ask.purpose == LeadFollowup && d.policy.requireConsent ==> ask.consent)
    && Phone.JurisdictionFor(Phone.Normalise(ask.to)).Some?
  }

  /** Nothing is stored exactly when the assistant is not known, or no weekday is left to plan for. */
  lemma NothingStored(d: Desk, ask: Ask, now: int)
    ensures NewJob(d, ask, now).None? <==> !ask.assistant || (Permitted(d, ask) && !d.policy.hours.HasDay())
  {
    Phone.NormaliseIdempotent(ask.to);
    RaisesOnlyWithoutDays(d.policy.hours, if ask.when.Some? then ask.when.value else now);
  }

  /**
   A job is planned for the first calling instant from the time asked for, or from now, exactly when it
   is permitted and there is time before its deadline; it is suppressed exactly when a purpose the policy
   allows meets a listed or blocked number; and cancelled otherwise.
   */
  lemma ScheduledAsAsked(d: Desk, ask: Ask, now: int)
    requires NewJob(d, ask, now).Some?
    ensures var j, wanted := NewJob(d, ask, now).value, if ask.when.Some? then ask.when.value else now;
      && j.purpose == ask.purpose && j.to == Phone.Normalise(ask.to) && j.notAfter == ask.notAfter
      && j.attempts == [] && j.maxAttempts == d.policy.maxAttempts && j.hasTicket == ask.hasTicket
      && j.callId == None && j.outcome == None && j.completedAt == None
      && (j.status == Scheduled <==> Permitted(d, ask) && TimeLeft(d.policy.hours, wanted, ask.notAfter))
      && (j.status == Suppressed <==>
            && d.policy.enabled && ask.purpose in d.policy.purposes
            && (Phone.Normalise(ask.to) in d.doNotCall || ask.blocked))
      && j.status in {Scheduled, Suppressed, Cancelled}
      && (j.status == Scheduled ==> FirstCallable(d.policy.hours, wanted, j.scheduledAt))
  {
    var wanted := if ask.when.Some? then ask.when.value else now;
    Phone.NormaliseIdempotent(ask.to);
    RaisesOnlyWithoutDays(d.policy.hours, wanted);
    if d.policy.hours.HasDay() {
      NextWindowIsFirst(d.policy.hours, wanted, ask.notAfter);
    }
  }

  // -- dialling ------------------------------------------------------------------------------------

  ghost predicate Late(j: Job, now: int) {
    j.notAfter.Some? && j.notAfter.value < now
  }

  ghost predicate Listed(d: Desk, j: Job) {
    Phone.Normalise(j.to) in d.doNotCall
  }

  /** A person asks for the call, or the hours allow it and the number has calls to spare today. */
  ghost predicate InTime(d: Desk, j: Job, now: int, manual: bool) {
    manual || (d.policy.hours.InWindow(now) && DailyCount(d, j.to, now) < d.policy.dailyCap)
  }

  /** When a job is dialled, and when it is closed instead. */
  lemma DialledExactly(d: Desk, j: Job, now: int, manual: bool, assistant: bool)
    ensures var v := Gate(d, j, now, manual, assistant);
      && (v == Dial <==> !Late(j, now) && !Listed(d, j) && d.policy.enabled && InTime(d, j, now, manual) && assistant)
      && (v == Close(Cancelled) <==> Late(j, now))
      && (v == Close(Suppressed) <==> !Late(j, now) && Listed(d, j))
      && (v == Close(Failed) <==>
            !Late(j, now) && !Listed(d, j) && d.policy.enabled && InTime(d, j, now, manual) && !assistant)
      && (v.Close? ==> v.status in {Cancelled, Suppressed, Failed})
  {
  }

  /**
   A job that is neither is put off: by the retry gap while calls are switched off, to the next calling
   instant out of hours, and to the first one a day from now when its number has had its calls.
   */
  lemma PutOffUntil(d: Desk, j: Job, now: int, manual: bool, assistant: bool)
    requires d.policy.hours.HasDay()
    ensures var v := Gate(d, j, now, manual, assistant);
      && !v.Raises?
      && (v.Defer? <==> !Late(j, now) && !Listed(d, j) && !(d.policy.enabled && InTime(d, j, now, manual)))
      && (v.Defer? && !d.policy.enabled ==> v.at == now + d.policy.retryGapMin * MINUTE)
      && (v.Defer? && d.policy.enabled && !d.policy.hours.InWindow(now) ==> FirstCallable(d.policy.hours, now, v.at))
      && (v.Defer? && d.policy.enabled && d.policy.hours.InWindow(now) ==> FirstCallable(d.policy.hours, now + DAY, v.at))
  {
    NextWindowIsFirst(d.policy.hours, now, None);
    NextWindowIsFirst(d.policy.hours, now + DAY, None);
  }

  /** Nothing but job `i` changes. */
  ghost predicate OnlyJob(d: Desk, e: Desk, i: nat) {
    && |e.jobs| == |d.jobs| && e.policy == d.policy && e.doNotCall == d.doNotCall
    && forall k | 0 <= k < |d.jobs| && k != i :: e.jobs[k] == d.jobs[k]
  }

  /** What a dispatch does to a waiting job: a new status, a new time, or a call placed and written down. */
  lemma DispatchedAsDecided(d: Desk, i: nat, now: int, manual: bool, assistant: bool, placed: Option<CallId>)
    requires i < |d.jobs| && d.jobs[i].status.Pending()
    ensures var j, v := d.jobs[i], Gate(d, d.jobs[i], now, manual, assistant);
      var e := Step(d, DispatchOp(i, now, manual, assistant, placed));
      && ((v.Dial? && placed.None?) || OnlyJob(d, e, i))
      && (v.Close? ==> e.jobs[i] == j.(status := v.status))
      && (v.Defer? ==> e.jobs[i] == j.(scheduledAt := v.at))
      && (v.Raises? ==> e == d)
      && (v.Dial? && placed.Some? ==>
            e.jobs[i] == j.(status := Dialing, callId := placed,
                            attempts := j.attempts + [Attempt(|j.attempts| + 1, now, placed, Unknown)]))
  {
  }

  // -- after an attempt ----------------------------------------------------------------------------

  /** Nobody was reached. */
  ghost predicate Unreached(o: Outcome) {
    o == Voicemail || o == NoAnswer || o == Busy || o == DialFailed
  }

  /**
   After an attempt that reached nobody a job is tried again exactly while attempts are left and there is
   time before its deadline once the retry gap is over: then at the first calling instant.  Otherwise it
   is exhausted; and any outcome that did reach somebody completes it.
   */
  lemma RetriedExactly(p: Policy, j: Job, o: Outcome, now: int)
    requires p.hours.HasDay()
    ensures var s, again := Settle(p, j, o, now), now + p.retryGapMin * MINUTE;
      && s.Some?
      && (var k := s.value;
          && k.outcome == Some(o) && k.attempts == j.attempts && k.to == j.to && k.maxAttempts == j.maxAttempts
          && k.purpose == j.purpose && k.notAfter == j.notAfter && k.callId == j.callId && k.hasTicket == j.hasTicket
          && (k.status == Retry <==> Unreached(o) && |j.attempts| < j.maxAttempts && TimeLeft(p.hours, again, j.notAfter))
          && (k.status == Completed <==> !Unreached(o))
          && k.status in {Retry, Completed, Exhausted}
          && (k.status == Retry ==> FirstCallable(p.hours, again, k.scheduledAt) && k.completedAt == j.completedAt)
          && (k.status != Retry ==> k.completedAt == Some(now)))
  {
    NextWindowIsFirst(p.hours, now + p.retryGapMin * MINUTE, j.notAfter);
  }

  /** An attempt that raises stores nothing: no weekday is left, attempts are, and nobody was reached. */
  lemma SettlingFails(p: Policy, j: Job, o: Outcome, now: int)
    ensures Settle(p, j, o, now).None? <==> Unreached(o) && |j.attempts| < j.maxAttempts && !p.hours.HasDay()
  {
    RaisesOnlyWithoutDays(p.hours, now + p.retryGapMin * MINUTE);
  }

  /** The settled job is stored, and only an opt-out or a wrong number changes anything else. */
  lemma StoredAfterAttempt(d: Desk, i: nat, j: Job, o: Outcome, now: int)
    requires i < |d.jobs| && Settle(d.policy, j, o, now).Some? && !j.status.Pending()
    ensures var e, k := AfterAttempt(d, i, j, o, now), Settle(d.policy, j, o, now).value;
      && (o != OptOut && o != WrongNumber ==> OnlyJob(d, e, i))
      && (o == OptOut || o == WrongNumber ==>
            e == Suppress(d.(jobs := d.jobs[i := k]), j.to))
      && |e.jobs| == |d.jobs| && e.jobs[i] == k
  {
  }

  /** A dial that fails is an attempt like any other. */
  lemma FailedDialIsAnAttempt(d: Desk, i: nat, now: int, manual: bool)
    requires i < |d.jobs| && d.jobs[i].status.Pending() && Gate(d, d.jobs[i], now, manual, true) == Dial
    ensures var j := d.jobs[i];
      var tried := j.(attempts := j.attempts + [Attempt(|j.attempts| + 1, now, None, DialFailed)]);
      Step(d, DispatchOp(i, now, manual, true, None)) == AfterAttempt(d, i, tried, DialFailed, now)
  {
  }

  /** The last attempt, if there is one, is given an outcome. */
  ghost predicate Noted(j: Job, k: Job, o: Outcome) {
    && k == j.(attempts := k.attempts) && |k.attempts| == |j.attempts|
    && forall m | 0 <= m < |j.attempts| ::
         k.attempts[m] == if m == |j.attempts| - 1 then j.attempts[m].(outcome := o) else j.attempts[m]
  }

  lemma LastIsNoted(j: Job, o: Outcome)
    ensures Noted(j, j.WithLast(o), o)
  {
  }

  lemma NotedOnce(j: Job, a: Job, b: Job, o: Outcome)
    requires Noted(j, a, o) && Noted(j, b, o)
    ensures a == b
  {
    assert a.attempts == b.attempts;
  }

  /** A job a foreign call belongs to is the newest one, of those a scan shows, that was last called under that id. */
  lemma JobFound(d: Desk, id: CallId, shown: nat, i: nat)
    ensures JobOf(d, id, shown) == Some(i) <==>
      match id
      case OfJob(job, _) => i == job && i < |d.jobs|
      case Foreign(_) =>
        && |d.jobs| - shown <= i < |d.jobs| && d.jobs[i].callId == Some(id)
        && forall k | i < k < |d.jobs| :: d.jobs[k].callId != Some(id)
  {
    if id.Foreign? {
      NewestFound(d.jobs, id, shown, |d.jobs|, i);
    }
  }

  lemma {:induction false} NewestFound(jobs: seq<Job>, id: CallId, shown: nat, k: nat, i: nat)
    requires k <= |jobs|
    ensures NewestWith(jobs, id, shown, k) == Some(i) <==>
      |jobs| - shown <= i < k && jobs[i].callId == Some(id) && forall m | i < m < k :: jobs[m].callId != Some(id)
  {
    if k > 0 {
      NewestFound(jobs, id, shown, k - 1, i);
    }
  }

  /**
   A call that ends settles its job if the job is active: with the outcome noted while it went on, or
   else the one reported; as a ticket, if it raised one and neither outcome nor job had said so.
   */
  lemma EndedAsReported(d: Desk, id: CallId, shown: nat, reported: Outcome, raised: bool, at: int, i: nat, noted: Job,
                        outcome: Outcome, final: Outcome)
    requires JobOf(d, id, shown) == Some(i) && d.jobs[i].status.Active()
    requires var a := d.jobs[i].attempts;
      outcome == if a != [] && a[|a| - 1].outcome != Unknown then a[|a| - 1].outcome else reported
    requires final == if raised && !d.jobs[i].hasTicket && (Unreached(outcome) || outcome == CallbackLater || outcome == Unknown)
                      then Ticketed else outcome
    requires Noted(d.jobs[i], noted, outcome)
    ensures Step(d, EndedOp(id, shown, reported, raised, at)) == AfterAttempt(d, i, noted, final, at)
  {
    LastIsNoted(d.jobs[i], outcome);
    NotedOnce(d.jobs[i], noted, d.jobs[i].WithLast(outcome), outcome);
  }

  /** A call that starts puts its job in progress, if it was being dialled; an end of a job not active changes nothing. */
  lemma StartedAsReported(d: Desk, id: CallId, shown: nat)
    ensures var found, e := JobOf(d, id, shown), Step(d, StartedOp(id, shown));
      if found.Some? && d.jobs[found.value].status == Dialing
      then OnlyJob(d, e, found.value) && e.jobs[found.value] == d.jobs[found.value].(status := InProgress)
      else e == d
    ensures forall reported, raised, at | JobOf(d, id, shown).None? || !d.jobs[JobOf(d, id, shown).value].status.Active() ::
      Step(d, EndedOp(id, shown, reported, raised, at)) == d
  {
  }

  /** A dial is given up exactly when its job is active and was last called the stale time ago. */
  lemma ExpiredExactly(d: Desk, i: nat, now: int, noted: Job)
    requires i < |d.jobs| && Noted(d.jobs[i], noted, DialFailed)
    ensures var j := d.jobs[i];
      Step(d, ExpireOp(i, now)) ==
        if (j.status == Dialing || j.status == InProgress) && j.attempts != []
           && j.attempts[|j.attempts| - 1].at <= now - d.policy.staleDialMin * MINUTE
        then AfterAttempt(d, i, noted, DialFailed, now) else d
  {
    LastIsNoted(d.jobs[i], DialFailed);
    NotedOnce(d.jobs[i], noted, d.jobs[i].WithLast(DialFailed), DialFailed);
  }

  /** An outcome noted during the call stands in its last attempt and in the job, and leaves the job's status alone. */
  lemma NotedDuringCall(d: Desk, i: nat, o: Outcome, noted: Job)
    requires i < |d.jobs| && Noted(d.jobs[i], noted, o)
    ensures var e := Step(d, OutcomeOp(i, o));
      && (o != OptOut ==> OnlyJob(d, e, i) && e.jobs[i] == noted.(outcome := Some(o)))
      && (o == OptOut ==> e == Suppress(d.(jobs := d.jobs[i := noted.(outcome := Some(o))]), d.jobs[i].to))
  {
    LastIsNoted(d.jobs[i], o);
    NotedOnce(d.jobs[i], noted, d.jobs[i].WithLast(o), o);
  }

  // -- lists ---------------------------------------------------------------------------------------

  /** Suppressing lists one number, and drops the waiting jobs to it among the newest five hundred. */
  lemma SuppressedExactly(d: Desk, phone: string)
    ensures var e, n := Step(d, SuppressOp(phone)), Phone.Normalise(phone);
      && |e.jobs| == |d.jobs| && e.policy == d.policy
      && (forall m :: m in e.doNotCall <==> m in d.doNotCall || m == n)
      && forall i | 0 <= i < |d.jobs| ::
           e.jobs[i] == if |d.jobs| - i <= 500 && d.jobs[i].to == n && (d.jobs[i].status == Scheduled || d.jobs[i].status == Retry)
                        then d.jobs[i].(status := Suppressed) else d.jobs[i]
  {
  }

  /** Taking a number off the list, however written, takes that one off; no job comes back. */
  lemma UnsuppressedExactly(d: Desk, phone: string)
    ensures var e := Step(d, UnsuppressOp(phone));
      && e.jobs == d.jobs && e.policy == d.policy
      && forall m :: m in e.doNotCall <==> m in d.doNotCall && m != Phone.Normalise(phone)
  {
  }

  /** Cancelling stops a waiting job, and no other. */
  lemma CancelledExactly(d: Desk, i: nat)
    requires i < |d.jobs|
    ensures var e, j := Step(d, CancelOp(i)), d.jobs[i];
      && OnlyJob(d, e, i)
      && e.jobs[i] == if j.status == Scheduled || j.status == Retry then j.(status := Cancelled) else j
  {
  }

  /** What is scheduled is stored behind the jobs there are; a new policy replaces the old one; neither changes anything else. */
  lemma StoredExactly(d: Desk, ask: Ask, now: int, policy: Policy)
    ensures var e, made := Step(d, ScheduleOp(ask, now)), NewJob(d, ask, now);
      && (made.None? ==> e == d)
      && (made.Some? ==> e == Desk(d.jobs + [made.value], d.doNotCall, d.policy))
    ensures Step(d, PolicyOp(policy)) == Desk(d.jobs, d.doNotCall, policy)
  {
  }

  /** Only a job that waits is ever dispatched. */
  lemma OthersNotDispatched(d: Desk, i: nat, now: int, manual: bool, assistant: bool, placed: Option<CallId>)
    requires i < |d.jobs| ==> d.jobs[i].status != Scheduled && d.jobs[i].status != Retry
    ensures Step(d, DispatchOp(i, now, manual, assistant, placed)) == d
  {
  }
}
