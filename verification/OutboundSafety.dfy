/** What every run of the dialler keeps. */
module OutboundSafety {
  import opened Wrappers
  import opened Clock
  import opened CallingWindow
  import opened Outbound
  import Phone

  // -- how one step may change one job ---------------------------------------------------------

  /** The same attempts, except that outcomes may be filled in. */
  ghost predicate SameAttempts(a: seq<Attempt>, b: seq<Attempt>) {
    |a| == |b| && forall k | 0 <= k < |a| :: a[k].n == b[k].n && a[k].at == b[k].at
  }

  /** Nothing that counts towards dialling has changed. */
  ghost predicate Idle(j: Job, k: Job) {
    k.status == j.status && SameAttempts(j.attempts, k.attempts)
  }

  /** A waiting job is closed without being dialled. */
  ghost predicate Closed(j: Job, k: Job) {
    j.status.Pending() && k.status.Terminal() && SameAttempts(j.attempts, k.attempts)
  }

  /** An attempt is over: another follows only while fewer than the maximum have been made. */
  ghost predicate Settled(j: Job, k: Job) {
    && (k.status.Terminal() || (k.status == Retry && |k.attempts| < k.maxAttempts))
    && (j.status.Active() || (j.status.Pending() && |k.attempts| == |j.attempts| + 1))
  }

  ghost predicate Answered(j: Job, k: Job) {
    j.status == Dialing && k.status == InProgress && SameAttempts(j.attempts, k.attempts)
  }

  /** The dial gates were passed at `now` and the attempt is recorded under the next number. */
  ghost predicate Dialled(d: Desk, j: Job, k: Job, now: int, manual: bool) {
    Gate(d, j, now, manual, true) == Dial && Attempted(j, k, now)
  }

  ghost predicate Attempted(j: Job, k: Job, now: int) {
    && j.status.Pending()
    && |k.attempts| == |j.attempts| + 1 && SameAttempts(j.attempts, k.attempts[..|j.attempts|])
    && k.Last().at == now && k.Last().n == |j.attempts| + 1
    && (k.status == Dialing || Settled(j, k))
  }

  ghost predicate Evolves(d: Desk, op: Op, i: nat, j: Job, k: Job) {
    && k.to == j.to && k.maxAttempts == j.maxAttempts && k.notAfter == j.notAfter
    && (|| Idle(j, k)
        || Closed(j, k)
        || Answered(j, k)
        || (SameAttempts(j.attempts, k.attempts) && Settled(j, k))
        || (op.DispatchOp? && op.i == i && Dialled(d, j, k, op.now, op.manual)))
  }

  lemma SettleKeeps(p: Policy, j: Job, o: Outcome, now: int)
    ensures var s := Settle(p, j, o, now);
      s.Some? ==>
        && s.value.to == j.to && s.value.maxAttempts == j.maxAttempts && s.value.notAfter == j.notAfter
        && s.value.attempts == j.attempts
        && (s.value.status.Terminal() || (s.value.status == Retry && |j.attempts| < j.maxAttempts))
  {
  }

  lemma WithLastKeeps(j: Job, o: Outcome)
    ensures SameAttempts(j.attempts, j.WithLast(o).attempts)
    ensures j.WithLast(o).(attempts := j.attempts) == j
  {
  }

  lemma SuppressKeeps(d: Desk, phone: string, i: nat)
    requires i < |d.jobs|
    ensures var s := Suppress(d, phone);
      && |s.jobs| == |d.jobs| && s.policy == d.policy
      && (s.jobs[i] == d.jobs[i] || (d.jobs[i].status.Pending() && s.jobs[i] == d.jobs[i].(status := Suppressed)))
  {
  }

  /** Storing a settled job changes it to that, or closes it; other jobs may only be closed. */
  lemma AfterAttemptKeeps(d: Desk, i: nat, j: Job, o: Outcome, now: int, k: nat)
    requires i < |d.jobs| && k < |d.jobs|
    ensures var a := AfterAttempt(d, i, j, o, now);
      && |a.jobs| == |d.jobs| && a.policy == d.policy
      && (k != i ==> Idle(d.jobs[k], a.jobs[k]) || Closed(d.jobs[k], a.jobs[k]))
      && a.jobs[k].to == (if k == i && a != d then j.to else d.jobs[k].to)
      && (k != i ==> a.jobs[k].maxAttempts == d.jobs[k].maxAttempts && a.jobs[k].notAfter == d.jobs[k].notAfter)
      && (k == i ==>
            || a == d
            || (&& a.jobs[i].maxAttempts == j.maxAttempts && a.jobs[i].notAfter == j.notAfter
                && a.jobs[i].attempts == j.attempts
                && (a.jobs[i].status.Terminal() || (a.jobs[i].status == Retry && |j.attempts| < j.maxAttempts))))
  {
    SettleKeeps(d.policy, j, o, now);
    var s := Settle(d.policy, j, o, now);
    if s.Some? {
      SuppressKeeps(d.Save(i, s.value), j.to, k);
    }
  }

  /** One step changes a job in one of these ways only, and never loses one. */
  lemma StepEvolves(d: Desk, op: Op, i: nat)
    requires i < |d.jobs|
    ensures i < |Step(d, op).jobs| && Evolves(d, op, i, d.jobs[i], Step(d, op).jobs[i])
  {
    match op
    case ScheduleOp(_, _) =>
    case DispatchOp(_, _, _, _, _) => DispatchEvolves(d, op, i);
    case ExpireOp(_, _) => ExpiredEvolves(d, op, i);
    case StartedOp(_, _) =>
    case EndedOp(_, _, _, _, _) => EndedEvolves(d, op, i);
    case OutcomeOp(_, _) => OutcomeEvolves(d, op, i);
    case CancelOp(_) =>
    case SuppressOp(phone) => SuppressKeeps(d, phone, i);
    case UnsuppressOp(_) =>
    case PolicyOp(_) =>
  }

  lemma DispatchEvolves(d: Desk, op: Op, i: nat)
    requires i < |d.jobs| && op.DispatchOp?
    ensures i < |Step(d, op).jobs| && Evolves(d, op, i, d.jobs[i], Step(d, op).jobs[i])
  {
    if op.i < |d.jobs| && d.jobs[op.i].status.Pending() {
      var j := d.jobs[op.i];
      match Gate(d, j, op.now, op.manual, op.assistant)
      case Close(status) =>
        GateCloses(d, j, op.now, op.manual, op.assistant);
        SavedEvolves(d, op, op.i, j.(status := status), i);
        assert Step(d, op) == d.Save(op.i, j.(status := status));
      case Defer(at) =>
        SavedEvolves(d, op, op.i, j.(scheduledAt := at), i);
        assert Step(d, op) == d.Save(op.i, j.(scheduledAt := at));
      case Raises =>
        assert Step(d, op) == d;
      case Dial =>
        if op.placed.Some? {
          PlacedEvolves(d, op, i);
        } else {
          UnplacedEvolves(d, op, i);
        }
    } else {
      assert Step(d, op) == d;
    }
  }

  /** A gate that closes a job closes it for good. */
  lemma GateCloses(d: Desk, j: Job, now: int, manual: bool, assistant: bool)
    ensures var v := Gate(d, j, now, manual, assistant); v.Close? ==> v.status.Terminal()
  {
  }

  lemma SavedEvolves(d: Desk, op: Op, at: nat, k: Job, i: nat)
    requires at < |d.jobs| && i < |d.jobs| && (Idle(d.jobs[at], k) || Closed(d.jobs[at], k))
    requires k.to == d.jobs[at].to && k.maxAttempts == d.jobs[at].maxAttempts && k.notAfter == d.jobs[at].notAfter
    ensures Evolves(d, op, i, d.jobs[i], d.Save(at, k).jobs[i])
  {
  }

  lemma PlacedEvolves(d: Desk, op: Op, i: nat)
    requires op.DispatchOp? && op.placed.Some? && i < |d.jobs| && op.i < |d.jobs| && d.jobs[op.i].status.Pending()
    requires Gate(d, d.jobs[op.i], op.now, op.manual, op.assistant) == Dial
    ensures i < |Step(d, op).jobs| && Evolves(d, op, i, d.jobs[i], Step(d, op).jobs[i])
  {
  }

  lemma UnplacedEvolves(d: Desk, op: Op, i: nat)
    requires op.DispatchOp? && op.placed.None? && i < |d.jobs| && op.i < |d.jobs| && d.jobs[op.i].status.Pending()
    requires Gate(d, d.jobs[op.i], op.now, op.manual, op.assistant) == Dial
    ensures i < |Step(d, op).jobs| && Evolves(d, op, i, d.jobs[i], Step(d, op).jobs[i])
  {
    var j := d.jobs[op.i];
    var tried := j.(attempts := j.attempts + [Attempt(|j.attempts| + 1, op.now, None, DialFailed)]);
    AfterAttemptKeeps(d, op.i, tried, DialFailed, op.now, i);
    assert Step(d, op) == AfterAttempt(d, op.i, tried, DialFailed, op.now);
    if i == op.i && Step(d, op) != d {
      var k := Step(d, op).jobs[i];
      assert k.attempts[..|j.attempts|] == j.attempts;
      assert Dialled(d, j, k, op.now, op.manual);
    }
  }

  lemma ExpiredEvolves(d: Desk, op: Op, i: nat)
    requires i < |d.jobs| && op.ExpireOp?
    ensures i < |Step(d, op).jobs| && Evolves(d, op, i, d.jobs[i], Step(d, op).jobs[i])
  {
    if op.i < |d.jobs| && IsStale(d, d.jobs[op.i], op.now) {
      ReportedEvolves(d, op, op.i, DialFailed, DialFailed, op.now, i);
    }
  }

  /** The last attempt of job `at` comes to an outcome. */
  lemma ReportedEvolves(d: Desk, op: Op, at: nat, outcome: Outcome, final: Outcome, now: int, i: nat)
    requires at < |d.jobs| && i < |d.jobs| && d.jobs[at].status.Active()
    ensures var e := AfterAttempt(d, at, d.jobs[at].WithLast(outcome), final, now);
      i < |e.jobs| && Evolves(d, op, i, d.jobs[i], e.jobs[i])
  {
    AfterAttemptKeeps(d, at, d.jobs[at].WithLast(outcome), final, now, i);
  }

  lemma OutcomeEvolves(d: Desk, op: Op, i: nat)
    requires i < |d.jobs| && op.OutcomeOp?
    ensures i < |Step(d, op).jobs| && Evolves(d, op, i, d.jobs[i], Step(d, op).jobs[i])
  {
    if op.i < |d.jobs| {
      var j := d.jobs[op.i];
      var noted := j.WithLast(op.o).(outcome := Some(op.o));
      WithLastKeeps(j, op.o);
      var saved := d.Save(op.i, noted);
      assert Idle(d.jobs[i], saved.jobs[i]) && saved.jobs[i].to == d.jobs[i].to;
      SuppressKeeps(saved, j.to, i);
      assert Step(d, op) == if op.o == OptOut then Suppress(saved, j.to) else saved;
      if Step(d, op).jobs[i] != saved.jobs[i] {
        assert Closed(d.jobs[i], Step(d, op).jobs[i]);
      }
    }
  }

  lemma EndedEvolves(d: Desk, op: Op, i: nat)
    requires i < |d.jobs| && op.EndedOp?
    ensures i < |Step(d, op).jobs| && Evolves(d, op, i, d.jobs[i], Step(d, op).jobs[i])
  {
    var found := JobOf(d, op.id, op.shown);
    if found.Some? && d.jobs[found.value].status.Active() {
      var j := d.jobs[found.value];
      var outcome := if j.attempts != [] && j.Last().outcome != Unknown then j.Last().outcome else op.reported;
      var final := if op.raisedTicket && outcome !in TERMINAL_CONTACT && !j.hasTicket then Ticketed else outcome;
      ReportedEvolves(d, op, found.value, outcome, final, op.at, i);
    } else {
      assert Step(d, op) == d;
    }
  }

  // -- the job machine -------------------------------------------------------------------------

  /** Attempts are numbered 1, 2, .. and bounded; a waiting job has one left, an active one has begun. */
  ghost predicate JobOk(j: Job) {
    && 1 <= j.maxAttempts && |j.attempts| <= j.maxAttempts
    && (j.status.Pending() ==> |j.attempts| < j.maxAttempts)
    && (j.status.Active() ==> j.attempts != [])
    && forall k | 0 <= k < |j.attempts| :: j.attempts[k].n == k + 1
  }

  ghost predicate JobsOk(d: Desk) {
    forall i | 0 <= i < |d.jobs| :: JobOk(d.jobs[i])
  }

  ghost predicate AttemptsAllowed(p: Policy) {
    1 <= p.maxAttempts
  }

  ghost predicate PoliciesAllowAttempts(d: Desk, ops: seq<Op>) {
    && AttemptsAllowed(d.policy)
    && forall k | 0 <= k < |ops| && ops[k].PolicyOp? :: AttemptsAllowed(ops[k].policy)
  }

  lemma StepPolicy(d: Desk, op: Op)
    ensures Step(d, op).policy == (if op.PolicyOp? then op.policy else d.policy)
  {
  }

  lemma EvolvedIsOk(d: Desk, op: Op, i: nat, j: Job, k: Job)
    requires JobOk(j) && Evolves(d, op, i, j, k)
    ensures JobOk(k)
  {
    if op.DispatchOp? && Dialled(d, j, k, op.now, op.manual) {
      AttemptedIsOk(j, k, op.now);
    }
  }

  lemma AttemptedIsOk(j: Job, k: Job, now: int)
    requires JobOk(j) && Attempted(j, k, now) && k.maxAttempts == j.maxAttempts
    ensures JobOk(k)
  {
  }

  lemma StepKeepsJobs(d: Desk, op: Op)
    requires JobsOk(d) && AttemptsAllowed(d.policy)
    ensures JobsOk(Step(d, op)) && |Step(d, op).jobs| >= |d.jobs|
  {
    var e := Step(d, op);
    forall i | 0 <= i < |d.jobs|
      ensures i < |e.jobs| && JobOk(e.jobs[i])
    {
      StepEvolves(d, op, i);
      EvolvedIsOk(d, op, i, d.jobs[i], e.jobs[i]);
    }
    StepAddsFreshJobs(d, op);
  }

  /** Only scheduling adds a job: at most one, with no attempts, waiting or already closed. */
  lemma StepAddsFreshJobs(d: Desk, op: Op)
    ensures |d.jobs| <= |Step(d, op).jobs| <= |d.jobs| + (if op.ScheduleOp? then 1 else 0)
    ensures forall i | |d.jobs| <= i < |Step(d, op).jobs| ::
              var j := Step(d, op).jobs[i];
              j.attempts == [] && !j.status.Active() && j.maxAttempts == d.policy.maxAttempts
              && (op.ScheduleOp? && j.to == Phone.Normalise(op.ask.to))
  {
    if op.ScheduleOp? {
      NewJobIsFresh(d, op.ask, op.now);
    } else {
      SameLength(d, op);
    }
  }

  lemma NewJobIsFresh(d: Desk, ask: Ask, now: int)
    ensures var made := NewJob(d, ask, now);
      made.Some? ==>
        && made.value.attempts == [] && !made.value.status.Active()
        && made.value.maxAttempts == d.policy.maxAttempts && made.value.to == Phone.Normalise(ask.to)
  {
  }

  lemma SameLength(d: Desk, op: Op)
    requires !op.ScheduleOp?
    ensures |Step(d, op).jobs| == |d.jobs|
  {
  }

  /** Over any run in which every policy allows at least one attempt, every job keeps its bounds. */
  lemma {:induction false} RunKeepsJobs(d: Desk, ops: seq<Op>)
    requires JobsOk(d) && PoliciesAllowAttempts(d, ops)
    ensures JobsOk(Run(d, ops))
    decreases |ops|
  {
    if ops != [] {
      StepKeepsJobs(d, ops[0]);
      StepPolicy(d, ops[0]);
      assert forall k | 0 <= k < |ops[1..]| :: ops[1..][k] == ops[k + 1];
      RunKeepsJobs(Step(d, ops[0]), ops[1..]);
    }
  }

  /** The proviso is exact: a fresh job that is dialled stays within its maximum just when that is positive. */
  lemma OneAttemptIsNeeded(d: Desk, i: nat, now: int, id: CallId)
    requires i < |d.jobs| && d.jobs[i].status == Scheduled && d.jobs[i].attempts == []
    requires Gate(d, d.jobs[i], now, false, true) == Dial
    ensures var j := Step(d, DispatchOp(i, now, false, true, Some(id))).jobs[i];
      |j.attempts| <= j.maxAttempts <==> 1 <= d.jobs[i].maxAttempts
  {
  }

  /** Completed, exhausted, suppressed, cancelled and failed jobs never change status or are dialled. */
  lemma TerminalIsFinal(d: Desk, op: Op, i: nat)
    requires i < |d.jobs| && d.jobs[i].status.Terminal()
    ensures i < |Step(d, op).jobs| && Idle(d.jobs[i], Step(d, op).jobs[i])
  {
    StepEvolves(d, op, i);
  }

  function Phase(s: Status): nat {
    if s == Dialing then 3 else if s == InProgress then 2 else if s.Pending() then 1 else 0
  }

  /** What a job has left: attempts first, then how far the current one has got. */
  function Fuel(j: Job): int {
    4 * (j.maxAttempts - |j.attempts|) + Phase(j.status)
  }

  ghost predicate Changed(j: Job, k: Job) {
    j.status != k.status || |j.attempts| != |k.attempts|
  }

  lemma ChangeBurnsFuel(d: Desk, op: Op, i: nat)
    requires i < |d.jobs|
    ensures i < |Step(d, op).jobs|
    ensures var j, k := d.jobs[i], Step(d, op).jobs[i];
      if Changed(j, k) then Fuel(k) < Fuel(j) else Fuel(k) == Fuel(j)
  {
    StepEvolves(d, op, i);
  }

  /** How often a job is dialled, answered, settled or closed over a run. */
  ghost function Changes(d: Desk, ops: seq<Op>, i: nat): nat
    requires i < |d.jobs|
    decreases |ops|
  {
    if ops == [] then 0
    else
      StepEvolves(d, ops[0], i);
      (if Changed(d.jobs[i], Step(d, ops[0]).jobs[i]) then 1 else 0) + Changes(Step(d, ops[0]), ops[1..], i)
  }

  lemma {:induction false} ChangesBurnFuel(d: Desk, ops: seq<Op>, i: nat)
    requires i < |d.jobs|
    ensures i < |Run(d, ops).jobs| && Changes(d, ops, i) <= Fuel(d.jobs[i]) - Fuel(Run(d, ops).jobs[i])
    decreases |ops|
  {
    if ops != [] {
      ChangeBurnsFuel(d, ops[0], i);
      ChangesBurnFuel(Step(d, ops[0]), ops[1..], i);
    }
  }

  /** However long the run and whatever is reported, a job changes at most 4 * max + 1 times. */
  lemma JobsComeToRest(d: Desk, ops: seq<Op>, i: nat)
    requires i < |d.jobs| && JobsOk(d) && PoliciesAllowAttempts(d, ops)
    ensures Changes(d, ops, i) <= 4 * d.jobs[i].maxAttempts + 1
  {
    ChangesBurnFuel(d, ops, i);
    RunKeepsJobs(d, ops);
    assert JobOk(Run(d, ops).jobs[i]);
    assert JobOk(d.jobs[i]);
  }

  // -- the gates at dial time -------------------------------------------------------------------

  /**
   An attempt is only ever added by dispatching a waiting job while the policy is enabled, no later
   than the deadline, to a number that may be called; without a person asking for it, also inside
   the calling window and below the daily cap.
   */
  lemma AttemptsAreGated(d: Desk, op: Op, i: nat)
    requires i < |d.jobs| && i < |Step(d, op).jobs| && |Step(d, op).jobs[i].attempts| != |d.jobs[i].attempts|
    ensures op.DispatchOp? && op.i == i && d.jobs[i].status.Pending()
    ensures |Step(d, op).jobs[i].attempts| == |d.jobs[i].attempts| + 1 && Step(d, op).jobs[i].Last().at == op.now
    ensures d.policy.enabled && !d.IsSuppressed(d.jobs[i].to)
    ensures d.jobs[i].notAfter.Some? ==> op.now <= d.jobs[i].notAfter.value
    ensures !op.manual ==> d.policy.hours.InWindow(op.now) && DailyCount(d, d.jobs[i].to, op.now) < d.policy.dailyCap
  {
    StepEvolves(d, op, i);
  }

  lemma DoNotCallGrows(d: Desk, op: Op, n: string)
    requires n in d.doNotCall && (op.UnsuppressOp? ==> Phone.Normalise(op.phone) != n)
    ensures n in Step(d, op).doNotCall
  {
  }

  /**
   While a number stays on the do-not-call list nobody dials it, not even by hand: over any run in
   which it is not taken off, the jobs that would call it gain no attempt, old or new.
   */
  lemma {:induction false} DoNotCallHolds(d: Desk, ops: seq<Op>, n: string)
    requires n in d.doNotCall
    requires forall k | 0 <= k < |ops| && ops[k].UnsuppressOp? :: Phone.Normalise(ops[k].phone) != n
    ensures |d.jobs| <= |Run(d, ops).jobs|
    ensures forall i | 0 <= i < |Run(d, ops).jobs| && Phone.Normalise(Run(d, ops).jobs[i].to) == n ::
              |Run(d, ops).jobs[i].attempts| == if i < |d.jobs| then |d.jobs[i].attempts| else 0
    decreases |ops|
  {
    if ops != [] {
      var e := Step(d, ops[0]);
      assert forall k | 0 <= k < |ops[1..]| :: ops[1..][k] == ops[k + 1];
      DoNotCallGrows(d, ops[0], n);
      StepAddsFreshJobs(d, ops[0]);
      DoNotCallHolds(e, ops[1..], n);
      forall i | 0 <= i < |Run(d, ops).jobs| && Phone.Normalise(Run(d, ops).jobs[i].to) == n
        ensures |Run(d, ops).jobs[i].attempts| == if i < |d.jobs| then |d.jobs[i].attempts| else 0
      {
        if i < |d.jobs| {
          StepEvolves(d, ops[0], i);
          RunKeepsNumber(e, ops[1..], i);
        }
      }
    }
  }

  lemma {:induction false} RunKeepsNumber(d: Desk, ops: seq<Op>, i: nat)
    requires i < |d.jobs|
    ensures i < |Run(d, ops).jobs| && Run(d, ops).jobs[i].to == d.jobs[i].to
    decreases |ops|
  {
    if ops != [] {
      StepEvolves(d, ops[0], i);
      RunKeepsNumber(Step(d, ops[0]), ops[1..], i);
    }
  }

  /** From the moment somebody asks not to be called, in whatever form the number was given. */
  lemma SuppressedForGood(d: Desk, phone: string, ops: seq<Op>, i: nat)
    requires forall k | 0 <= k < |ops| && ops[k].UnsuppressOp? :: Phone.Normalise(ops[k].phone) != Phone.Normalise(phone)
    requires i < |Run(Suppress(d, phone), ops).jobs| && Run(Suppress(d, phone), ops).jobs[i].to == Phone.Normalise(phone)
    ensures |Run(Suppress(d, phone), ops).jobs[i].attempts| == if i < |d.jobs| then |d.jobs[i].attempts| else 0
  {
    Phone.NormaliseIdempotent(phone);
    var s := Suppress(d, phone);
    DoNotCallHolds(s, ops, Phone.Normalise(phone));
    if i < |d.jobs| {
      SuppressKeeps(d, phone, i);
    }
  }

  /** A call that ends with an opt-out or a wrong number puts its number on the list. */
  lemma OptOutIsListed(d: Desk, id: CallId, shown: nat, reported: Outcome, raisedTicket: bool, at: int)
    requires JobOf(d, id, shown).Some? && d.jobs[JobOf(d, id, shown).value].status.Active()
    requires var j := d.jobs[JobOf(d, id, shown).value];
      var outcome := if j.attempts != [] && j.Last().outcome != Unknown then j.Last().outcome else reported;
      outcome == OptOut || outcome == WrongNumber
    ensures CallEnded(d, id, shown, reported, raisedTicket, at).IsSuppressed(d.jobs[JobOf(d, id, shown).value].to)
  {
  }

  // -- the daily cap ---------------------------------------------------------------------------

  lemma {:induction false} SameAttemptsIn(a: seq<Attempt>, b: seq<Attempt>, lo: int, hi: int)
    requires SameAttempts(a, b)
    ensures AttemptsIn(a, lo, hi) == AttemptsIn(b, lo, hi)
  {
    if a != [] {
      SameAttemptsIn(a[1..], b[1..], lo, hi);
    }
  }

  lemma {:induction false} AttemptsInSince(a: seq<Attempt>, lo: int, hi: int, from: int)
    requires from <= lo
    ensures AttemptsIn(a, lo, hi) <= AttemptsSince(a, from)
  {
    if a != [] {
      AttemptsInSince(a[1..], lo, hi, from);
    }
  }

  lemma {:induction false} CallsInSince(jobs: seq<Job>, to: string, lo: int, hi: int, from: int)
    requires from <= lo
    ensures CallsIn(jobs, to, lo, hi) <= CallsSince(jobs, to, from)
  {
    if jobs != [] {
      AttemptsInSince(jobs[0].attempts, lo, hi, from);
      CallsInSince(jobs[1..], to, lo, hi, from);
    }
  }

  /** `extra` jobs of `b` gained an attempt in the interval; jobs beyond the end of `a` have none. */
  lemma {:induction false} CallsInGrow(a: seq<Job>, b: seq<Job>, to: string, lo: int, hi: int, at: int, extra: nat)
    requires |a| <= |b|
    requires forall i | 0 <= i < |a| :: b[i].to == a[i].to
    requires forall i | 0 <= i < |a| && i != at :: SameAttempts(a[i].attempts, b[i].attempts)
    requires 0 <= at < |a| ==> AttemptsIn(b[at].attempts, lo, hi) == AttemptsIn(a[at].attempts, lo, hi) + extra
    requires forall i | |a| <= i < |b| :: b[i].attempts == []
    ensures CallsIn(b, to, lo, hi) == CallsIn(a, to, lo, hi) + (if 0 <= at < |a| && a[at].to == to then extra else 0)
    decreases |b|
  {
    if a != [] {
      if at != 0 {
        SameAttemptsIn(a[0].attempts, b[0].attempts, lo, hi);
      }
      CallsInGrow(a[1..], b[1..], to, lo, hi, at - 1, extra);
    } else if b != [] {
      CallsInGrow(a, b[1..], to, lo, hi, at, extra);
    }
  }

  /** Attempts to a number in the closed 24 hours from `lo`. */
  ghost function CallsOverDay(jobs: seq<Job>, to: string, lo: int): nat {
    CallsIn(jobs, to, lo, lo + DAY)
  }

  /** No closed 24-hour interval holds more than `cap` attempts to any one number. */
  ghost predicate CapHolds(d: Desk, cap: nat) {
    forall to, lo :: CallsOverDay(d.jobs, to, lo) <= cap
  }

  /** What any step does to the desk's jobs. */
  ghost predicate Moved(d: Desk, op: Op, e: Desk) {
    && |d.jobs| <= |e.jobs|
    && (forall i | 0 <= i < |d.jobs| :: Evolves(d, op, i, d.jobs[i], e.jobs[i]))
    && (forall i | |d.jobs| <= i < |e.jobs| :: e.jobs[i].attempts == [])
  }

  lemma StepMoves(d: Desk, op: Op)
    ensures Moved(d, op, Step(d, op))
  {
    StepAddsFreshJobs(d, op);
    forall i | 0 <= i < |d.jobs|
      ensures Evolves(d, op, i, d.jobs[i], Step(d, op).jobs[i])
    {
      StepEvolves(d, op, i);
    }
  }

  /** After job `i` is dialled at `now`, and nothing else changes. */
  ghost predicate OneDialled(a: seq<Job>, b: seq<Job>, i: nat, now: int) {
    && i < |a| <= |b|
    && (forall k | 0 <= k < |a| :: b[k].to == a[k].to)
    && (forall k | 0 <= k < |a| && k != i :: SameAttempts(a[k].attempts, b[k].attempts))
    && (forall k | |a| <= k < |b| :: b[k].attempts == [])
    && |b[i].attempts| == |a[i].attempts| + 1
    && SameAttempts(a[i].attempts, b[i].attempts[..|a[i].attempts|])
    && b[i].attempts[|a[i].attempts|].at == now
  }

  lemma DialIsOne(d: Desk, op: Op, e: Desk, i: nat)
    requires Moved(d, op, e) && i < |d.jobs| && |e.jobs[i].attempts| != |d.jobs[i].attempts|
    ensures op.DispatchOp? && op.i == i && Gate(d, d.jobs[i], op.now, op.manual, true) == Dial
    ensures OneDialled(d.jobs, e.jobs, i, op.now)
  {
  }

  lemma CapAfterDial(d: Desk, e: Desk, i: nat, now: int, cap: nat)
    requires CapHolds(d, cap) && OneDialled(d.jobs, e.jobs, i, now)
    requires CallsSince(d.jobs, d.jobs[i].to, now - DAY) < cap
    ensures CapHolds(e, cap)
  {
    forall to, lo
      ensures CallsOverDay(e.jobs, to, lo) <= cap
    {
      assert CallsOverDay(d.jobs, to, lo) <= cap;
      OneMoreCall(d.jobs, e.jobs, i, now, to, lo, cap);
    }
  }

  /** The number of the job dialled had fewer than `cap` calls in the day before. */
  lemma OneMoreCall(a: seq<Job>, b: seq<Job>, i: nat, now: int, to: string, lo: int, cap: nat)
    requires OneDialled(a, b, i, now) && CallsOverDay(a, to, lo) <= cap
    requires CallsSince(a, a[i].to, now - DAY) < cap
    ensures CallsOverDay(b, to, lo) <= cap
  {
    var inside := lo <= now <= lo + DAY;
    DialledAttemptsIn(a[i].attempts, b[i].attempts, now, lo, lo + DAY);
    CallsInGrow(a, b, to, lo, lo + DAY, i, if inside then 1 else 0);
    if inside {
      CallsInSince(a, to, lo, lo + DAY, now - DAY);
    }
  }

  lemma DialledAttemptsIn(a: seq<Attempt>, b: seq<Attempt>, now: int, lo: int, hi: int)
    requires |b| == |a| + 1 && SameAttempts(a, b[..|a|]) && b[|a|].at == now
    ensures AttemptsIn(b, lo, hi) == AttemptsIn(a, lo, hi) + (if lo <= now <= hi then 1 else 0)
  {
  }

  /** The jobs beyond one listing of the store, which the count never sees. */
  function Unlisted(jobs: seq<Job>): seq<Job> {
    if |jobs| <= LIST_LIMIT then [] else jobs[..|jobs| - LIST_LIMIT]
  }

  lemma {:induction false} CallsSinceSplit(jobs: seq<Job>, k: nat, to: string, lo: int)
    requires k <= |jobs|
    ensures CallsSince(jobs, to, lo) == CallsSince(jobs[..k], to, lo) + CallsSince(jobs[k..], to, lo)
    decreases |jobs|
  {
    if k == 0 {
      assert jobs[..0] == [] && jobs[0..] == jobs;
    } else {
      CallsSinceSplit(jobs[1..], k - 1, to, lo);
      assert jobs[..k][1..] == jobs[1..][..k - 1] && jobs[1..][k - 1..] == jobs[k..];
    }
  }

  /** The calls to a number in the last day: those the listing shows, and those beyond it. */
  function TrueCount(d: Desk, to: string, now: int): nat {
    DailyCount(d, to, now) + CallsSince(Unlisted(d.jobs), to, now - DAY)
  }

  lemma TrueCountIsTrue(d: Desk, to: string, now: int)
    ensures TrueCount(d, to, now) == CallsSince(d.jobs, to, now - DAY)
  {
    var k := |Unlisted(d.jobs)|;
    CallsSinceSplit(d.jobs, k, to, now - DAY);
    assert d.jobs[..k] == Unlisted(d.jobs) && d.jobs[k..] == Newest(d.jobs, LIST_LIMIT);
  }

  /** The day's count is the true one exactly when no job beyond the listing called the number that day. */
  lemma CountIsWhole(d: Desk, to: string, now: int)
    ensures DailyCount(d, to, now) == CallsSince(d.jobs, to, now - DAY)
            <==> CallsSince(Unlisted(d.jobs), to, now - DAY) == 0
  {
    TrueCountIsTrue(d, to, now);
  }

  /** Every attempt on record was made at `now` or before. */
  ghost predicate Past(jobs: seq<Job>, now: int) {
    forall i, k | 0 <= i < |jobs| && 0 <= k < |jobs[i].attempts| :: jobs[i].attempts[k].at <= now
  }

  lemma {:induction false} AttemptsUpToNow(a: seq<Attempt>, lo: int, now: int)
    requires forall k | 0 <= k < |a| :: a[k].at <= now
    ensures AttemptsIn(a, lo, now) == AttemptsSince(a, lo)
  {
    if a != [] {
      AttemptsUpToNow(a[1..], lo, now);
    }
  }

  lemma {:induction false} CallsUpToNow(jobs: seq<Job>, to: string, lo: int, now: int)
    requires Past(jobs, now)
    ensures CallsIn(jobs, to, lo, now) == CallsSince(jobs, to, lo)
  {
    if jobs != [] {
      AttemptsUpToNow(jobs[0].attempts, lo, now);
      assert forall i | 0 <= i < |jobs[1..]| :: jobs[1..][i] == jobs[i + 1];
      CallsUpToNow(jobs[1..], to, lo, now);
    }
  }

  /** A dial keeps the cap exactly when the number had fewer than `cap` calls in the last day, listed or not. */
  lemma DialKeepsCap(d: Desk, e: Desk, i: nat, now: int, cap: nat)
    requires CapHolds(d, cap) && OneDialled(d.jobs, e.jobs, i, now) && Past(d.jobs, now)
    ensures CapHolds(e, cap) <==> TrueCount(d, d.jobs[i].to, now) < cap
  {
    var to := d.jobs[i].to;
    TrueCountIsTrue(d, to, now);
    if TrueCount(d, to, now) < cap {
      CapAfterDial(d, e, i, now, cap);
    } else {
      CallsUpToNow(d.jobs, to, now - DAY, now);
      DialledAttemptsIn(d.jobs[i].attempts, e.jobs[i].attempts, now, now - DAY, now);
      CallsInGrow(d.jobs, e.jobs, to, now - DAY, now, i, 1);
      assert CallsOverDay(e.jobs, to, now - DAY) > cap;
    }
  }

  /** The step from `d` to `e` dials, and the number has a call to spare. */
  ghost predicate Spared(d: Desk, op: Op, e: Desk, cap: nat) {
    op.DispatchOp? && op.i < |d.jobs| && op.i < |e.jobs| && |e.jobs[op.i].attempts| != |d.jobs[op.i].attempts| ==>
      TrueCount(d, d.jobs[op.i].to, op.now) < cap
  }

  /** Every dial of the run, by hand or not, finds fewer than `cap` calls to its number in the last day. */
  ghost predicate AlwaysSpared(d: Desk, ops: seq<Op>, cap: nat)
    decreases |ops|
  {
    ops == [] || (Spared(d, ops[0], Step(d, ops[0]), cap) && AlwaysSpared(Step(d, ops[0]), ops[1..], cap))
  }

  /** Dispatches happen in the order of their times, none before `since`. */
  ghost predicate InOrder(ops: seq<Op>, since: int)
    decreases |ops|
  {
    ops == [] ||
    (if ops[0].DispatchOp? then since <= ops[0].now && InOrder(ops[1..], ops[0].now) else InOrder(ops[1..], since))
  }

  lemma MoveKeepsCap(d: Desk, op: Op, e: Desk, cap: nat)
    requires CapHolds(d, cap) && Moved(d, op, e)
    ensures Spared(d, op, e, cap) ==> CapHolds(e, cap)
    ensures op.DispatchOp? && Past(d.jobs, op.now) && CapHolds(e, cap) ==> Spared(d, op, e, cap)
  {
    if i :| 0 <= i < |d.jobs| && |e.jobs[i].attempts| != |d.jobs[i].attempts| {
      DialIsOne(d, op, e, i);
      TrueCountIsTrue(d, d.jobs[i].to, op.now);
      if Spared(d, op, e, cap) {
        CapAfterDial(d, e, i, op.now, cap);
      } else if Past(d.jobs, op.now) {
        DialKeepsCap(d, e, i, op.now, cap);
      }
    } else {
      forall to, lo
        ensures CallsOverDay(e.jobs, to, lo) <= cap
      {
        MoveKeepsCalls(d, op, e, to, lo, lo + DAY);
        assert CallsOverDay(d.jobs, to, lo) <= cap;
      }
    }
  }

  /** Calls on record stay on record, and none is added without a dial. */
  lemma MoveKeepsCalls(d: Desk, op: Op, e: Desk, to: string, lo: int, hi: int)
    requires Moved(d, op, e)
    ensures CallsIn(d.jobs, to, lo, hi) <= CallsIn(e.jobs, to, lo, hi)
    ensures (forall i | 0 <= i < |d.jobs| :: |e.jobs[i].attempts| == |d.jobs[i].attempts|) ==>
              CallsIn(d.jobs, to, lo, hi) == CallsIn(e.jobs, to, lo, hi)
  {
    if i :| 0 <= i < |d.jobs| && |e.jobs[i].attempts| != |d.jobs[i].attempts| {
      DialIsOne(d, op, e, i);
      DialledAttemptsIn(d.jobs[i].attempts, e.jobs[i].attempts, op.now, lo, hi);
      CallsInGrow(d.jobs, e.jobs, to, lo, hi, i, if lo <= op.now <= hi then 1 else 0);
    } else {
      CallsInGrow(d.jobs, e.jobs, to, lo, hi, -1, 0);
    }
  }

  lemma MovePast(d: Desk, op: Op, e: Desk, now: int)
    requires Moved(d, op, e) && Past(d.jobs, now) && (op.DispatchOp? ==> op.now <= now)
    ensures Past(e.jobs, now)
  {
    forall i | 0 <= i < |d.jobs|
      ensures forall k | 0 <= k < |e.jobs[i].attempts| :: e.jobs[i].attempts[k].at <= now
    {
      EvolvedPast(d, op, i, d.jobs[i], e.jobs[i], now);
    }
  }

  lemma EvolvedPast(d: Desk, op: Op, i: nat, j: Job, k: Job, now: int)
    requires Evolves(d, op, i, j, k) && (op.DispatchOp? ==> op.now <= now)
    requires forall m | 0 <= m < |j.attempts| :: j.attempts[m].at <= now
    ensures forall m | 0 <= m < |k.attempts| :: k.attempts[m].at <= now
  {
    if |k.attempts| == |j.attempts| + 1 {
      assert Attempted(j, k, op.now);
      forall m | 0 <= m < |j.attempts|
        ensures k.attempts[m].at == j.attempts[m].at
      {
        assert k.attempts[..|j.attempts|][m] == k.attempts[m];
      }
    }
  }

  lemma {:induction false} RunKeepsCalls(d: Desk, ops: seq<Op>, to: string, lo: int)
    ensures CallsOverDay(d.jobs, to, lo) <= CallsOverDay(Run(d, ops).jobs, to, lo)
    decreases |ops|
  {
    if ops != [] {
      StepMoves(d, ops[0]);
      MoveKeepsCalls(d, ops[0], Step(d, ops[0]), to, lo, lo + DAY);
      RunKeepsCalls(Step(d, ops[0]), ops[1..], to, lo);
    }
  }

  lemma CapHeldBefore(d: Desk, ops: seq<Op>, cap: nat)
    requires CapHolds(Run(d, ops), cap)
    ensures CapHolds(d, cap)
  {
    forall to, lo
      ensures CallsOverDay(d.jobs, to, lo) <= cap
    {
      RunKeepsCalls(d, ops, to, lo);
      assert CallsOverDay(Run(d, ops).jobs, to, lo) <= cap;
    }
  }

  /** A run in which every dial has a call to spare keeps the cap, whatever the clock does. */
  lemma {:induction false} SparedKeepsCap(d: Desk, ops: seq<Op>, cap: nat)
    requires CapHolds(d, cap) && AlwaysSpared(d, ops, cap)
    ensures CapHolds(Run(d, ops), cap)
    decreases |ops|
  {
    if ops != [] {
      StepMoves(d, ops[0]);
      MoveKeepsCap(d, ops[0], Step(d, ops[0]), cap);
      SparedKeepsCap(Step(d, ops[0]), ops[1..], cap);
    }
  }

  /**
   The rolling cap over whole runs: no closed 24-hour interval ever holds more than `cap` attempts to
   any number, over all jobs and failed dials included, exactly when every dial, automated or by hand,
   found fewer than `cap` calls to its number in the day before, in the listing and beyond it.
   */
  lemma {:induction false} DailyCapHolds(d: Desk, ops: seq<Op>, cap: nat, since: int)
    requires CapHolds(d, cap) && Past(d.jobs, since) && InOrder(ops, since)
    ensures CapHolds(Run(d, ops), cap) <==> AlwaysSpared(d, ops, cap)
    decreases |ops|
  {
    if AlwaysSpared(d, ops, cap) {
      SparedKeepsCap(d, ops, cap);
    }
    if CapHolds(Run(d, ops), cap) && ops != [] {
      var op, e := ops[0], Step(d, ops[0]);
      var now := if op.DispatchOp? then op.now else since;
      StepMoves(d, op);
      CapHeldBefore(e, ops[1..], cap);
      assert Past(d.jobs, now);
      MoveKeepsCap(d, op, e, cap);
      MovePast(d, op, e, now);
      DailyCapHolds(e, ops[1..], cap, now);
    }
  }

  /** Nobody dials by hand, and every policy of the run caps a number at `cap` a day or less. */
  ghost predicate Automated(d: Desk, ops: seq<Op>, cap: nat) {
    && d.policy.dailyCap <= cap
    && forall k | 0 <= k < |ops| ::
         && !(ops[k].DispatchOp? && ops[k].manual)
         && (ops[k].PolicyOp? ==> ops[k].policy.dailyCap <= cap)
  }

  lemma GatedIsSpared(d: Desk, op: Op, e: Desk, cap: nat)
    requires Moved(d, op, e) && d.policy.dailyCap <= cap && |d.jobs| <= LIST_LIMIT
    requires !(op.DispatchOp? && op.manual)
    ensures Spared(d, op, e, cap)
  {
    if op.DispatchOp? && op.i < |d.jobs| && |e.jobs[op.i].attempts| != |d.jobs[op.i].attempts| {
      DialIsOne(d, op, e, op.i);
      assert DailyCount(d, d.jobs[op.i].to, op.now) < d.policy.dailyCap;
    }
  }

  /** So it holds for every tenant whose jobs fit in one listing, as long as nobody dials by hand. */
  lemma {:induction false} OneListingKeepsCap(d: Desk, ops: seq<Op>, cap: nat)
    requires CapHolds(d, cap) && Automated(d, ops, cap) && |Run(d, ops).jobs| <= LIST_LIMIT
    ensures AlwaysSpared(d, ops, cap) && CapHolds(Run(d, ops), cap)
    decreases |ops|
  {
    if ops != [] {
      var op, e := ops[0], Step(d, ops[0]);
      assert forall k | 0 <= k < |ops[1..]| :: ops[1..][k] == ops[k + 1];
      RunGrows(d, ops);
      StepMoves(d, op);
      StepPolicy(d, op);
      GatedIsSpared(d, op, e, cap);
      MoveKeepsCap(d, op, e, cap);
      OneListingKeepsCap(e, ops[1..], cap);
    }
  }

  lemma {:induction false} RunGrows(d: Desk, ops: seq<Op>)
    ensures |d.jobs| <= |Run(d, ops).jobs|
    decreases |ops|
  {
    if ops != [] {
      StepAddsFreshJobs(d, ops[0]);
      RunGrows(Step(d, ops[0]), ops[1..]);
    }
  }

  // -- beyond one listing ----------------------------------------------------------------------

  const ALL_DAY := CallingHours(0, DAY - 1, {0, 1, 2, 3, 4, 5, 6})
  const ONE_A_DAY := Policy(true, {Reminder}, ALL_DAY, 3, 90, 1, true, 10)
  const CALLED_AT_MIDNIGHT := Job(Reminder, "+441", 0, None, Retry, [Attempt(1, 0, None, NoAnswer)], 3, None,
                                  Some(NoAnswer), false, None)
  const NEVER_CALLED := Job(Reminder, "+442", 0, None, Scheduled, [], 3, None, None, false, None)

  /** One job that has used up its number's daily cap, followed by a full listing of other jobs. */
  function CrowdedDesk(): Desk {
    Desk([CALLED_AT_MIDNIGHT] + seq(LIST_LIMIT, _ => NEVER_CALLED), {}, ONE_A_DAY)
  }

  lemma {:induction false} NoCallsYet(jobs: seq<Job>, to: string, lo: int, hi: int)
    requires forall i | 0 <= i < |jobs| :: jobs[i].attempts == []
    ensures CallsIn(jobs, to, lo, hi) == 0 && CallsSince(jobs, to, lo) == 0
  {
    if jobs != [] {
      NoCallsYet(jobs[1..], to, lo, hi);
    }
  }

  lemma CrowdedDeskWithinCap()
    ensures CapHolds(CrowdedDesk(), 1)
  {
    var jobs := CrowdedDesk().jobs;
    assert jobs[0] == CALLED_AT_MIDNIGHT && forall i | 0 <= i < |jobs[1..]| :: jobs[1..][i] == NEVER_CALLED;
    forall to, lo
      ensures CallsOverDay(jobs, to, lo) <= 1
    {
      NoCallsYet(jobs[1..], to, lo, lo + DAY);
      assert AttemptsIn(CALLED_AT_MIDNIGHT.attempts, lo, lo + DAY) <= 1;
    }
  }

  lemma CrowdedDeskDials(now: int)
    requires now == 9 * HOUR
    ensures Gate(CrowdedDesk(), CALLED_AT_MIDNIGHT, now, false, true) == Dial
  {
    var d := CrowdedDesk();
    var listed := Newest(d.jobs, LIST_LIMIT);
    assert forall i | 0 <= i < |listed| :: listed[i] == NEVER_CALLED;
    NoCallsYet(listed, "+441", now - DAY, now);
    assert DayOf(now) == 0 && d.policy.hours.InWindow(now);
    Phone.NormaliseShape("+441");
  }

  /** The limit matters: one job more than a listing shows, and the cap is broken. */
  lemma CapNeedsFullListing()
    ensures CapHolds(CrowdedDesk(), 1) && |CrowdedDesk().jobs| == LIST_LIMIT + 1
    ensures !CapHolds(Step(CrowdedDesk(), DispatchOp(0, 9 * HOUR, false, true, Some(OfJob(0, 2)))), 1)
  {
    CrowdedDeskWithinCap();
    CrowdedDeskAgain();
    TwoCallsInADay(CrowdedDesk().Save(0, CALLED_AGAIN).jobs, 9 * HOUR);
  }

  const CALLED_AGAIN := CALLED_AT_MIDNIGHT.(
    attempts := CALLED_AT_MIDNIGHT.attempts + [Attempt(2, 9 * HOUR, Some(OfJob(0, 2)), Unknown)],
    callId := Some(OfJob(0, 2)), status := Dialing)

  lemma CrowdedDeskAgain()
    ensures Step(CrowdedDesk(), DispatchOp(0, 9 * HOUR, false, true, Some(OfJob(0, 2)))) == CrowdedDesk().Save(0, CALLED_AGAIN)
  {
    CrowdedDeskDials(9 * HOUR);
    assert CrowdedDesk().jobs[0] == CALLED_AT_MIDNIGHT;
  }

  lemma TwoCallsInADay(jobs: seq<Job>, now: int)
    requires jobs != [] && jobs[0].to == "+441" && 0 <= now <= DAY
    requires |jobs[0].attempts| == 2 && jobs[0].attempts[0].at == 0 && jobs[0].attempts[1].at == now
    ensures CallsOverDay(jobs, "+441", 0) >= 2
  {
    var tries := jobs[0].attempts;
    assert AttemptsIn(tries[1..], 0, DAY) == 1 + AttemptsIn(tries[1..][1..], 0, DAY);
  }
}
