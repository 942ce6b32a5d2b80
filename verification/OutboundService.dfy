/** The dialler as the service runs it, proved against the steps (apps/api/parlio_api/outbound.py). */
module OutboundService {
  import opened Wrappers
  import opened Clock
  import opened CallingWindow
  import opened Outbound
  import Phone

  lemma {:induction false} RunThen(d: Desk, ops: seq<Op>, op: Op)
    ensures Run(d, ops + [op]) == Step(Run(d, ops), op)
    decreases |ops|
  {
    if ops == [] {
      assert ops + [op] == [op] && [op][1..] == [];
    } else {
      RunThen(Step(d, ops[0]), ops[1..], op);
      assert (ops + [op])[1..] == ops[1..] + [op];
    }
  }

  lemma {:induction false} CallsSinceSnoc(jobs: seq<Job>, j: Job, to: string, lo: int)
    ensures CallsSince(jobs + [j], to, lo) == CallsSince(jobs, to, lo) + (if j.to == to then AttemptsSince(j.attempts, lo) else 0)
  {
    if jobs == [] {
      assert jobs + [j] == [j] && [j][1..] == [];
    } else {
      CallsSinceSnoc(jobs[1..], j, to, lo);
      assert (jobs + [j])[1..] == jobs[1..] + [j];
    }
  }

  lemma {:induction false} AttemptsSinceSnoc(a: seq<Attempt>, x: Attempt, lo: int)
    ensures AttemptsSince(a + [x], lo) == AttemptsSince(a, lo) + (if lo <= x.at then 1 else 0)
  {
    if a == [] {
      assert a + [x] == [x] && [x][1..] == [];
    } else {
      AttemptsSinceSnoc(a[1..], x, lo);
      assert (a + [x])[1..] == a[1..] + [x];
    }
  }

  /** A job as a sweep read it, with its place in the store. */
  datatype Listed = Listed(i: nat, job: Job)

  /** A dispatch that finds no calling window to put the job off to. */
  predicate DispatchRaises(d: Desk, i: nat, now: int, manual: bool, assistant: bool, placed: Option<CallId>)
    requires i < |d.jobs|
  {
    var j := d.jobs[i];
    match Gate(d, j, now, manual, assistant)
    case Raises => true
    case Dial =>
      placed.None?
      && Settle(d.policy, j.(attempts := j.attempts + [Attempt(|j.attempts| + 1, now, None, DialFailed)]), DialFailed, now).None?
    case _ => false
  }

  lemma RaisingHasNoDay(d: Desk, i: nat, now: int, manual: bool, assistant: bool, placed: Option<CallId>)
    requires i < |d.jobs| && DispatchRaises(d, i, now, manual, assistant, placed)
    ensures !d.policy.hours.HasDay()
  {
    RaisesOnlyWithoutDays(d.policy.hours, now);
    RaisesOnlyWithoutDays(d.policy.hours, now + DAY);
    RaisesOnlyWithoutDays(d.policy.hours, now + d.policy.retryGapMin * MINUTE);
  }

  // -- what a scan shows -------------------------------------------------------------------------

  function Count(desks: seq<string>, desk: string): nat {
    if desks == [] then 0 else (if desks[0] == desk then 1 else 0) + Count(desks[1..], desk)
  }

  /** How many of its jobs a desk sees in a scan; `desks` names the desk of every job, oldest first. */
  function ScanShows(desks: seq<string>, desk: string): nat {
    Count(Newest(desks, SCAN_LIMIT), desk)
  }

  lemma {:induction false} CountSplit(a: seq<string>, b: seq<string>, desk: string)
    ensures Count(a + b, desk) == Count(a, desk) + Count(b, desk)
  {
    if a == [] {
      assert a + b == b;
    } else {
      CountSplit(a[1..], b, desk);
      assert (a + b)[1..] == a[1..] + b;
    }
  }

  /** A desk's job shows up in a scan exactly when fewer than five thousand jobs of all desks are newer. */
  lemma ScannedIfRecent(desks: seq<string>, at: nat)
    requires at < |desks|
    ensures var desk := desks[at];
      Count(desks[..at], desk) >= Count(desks, desk) - ScanShows(desks, desk) <==> |desks| - at <= SCAN_LIMIT
  {
    var desk, cut := desks[at], if |desks| <= SCAN_LIMIT then 0 else |desks| - SCAN_LIMIT;
    CountTo(desks, cut, |desks|, desk);
    assert desks[..|desks|] == desks && Newest(desks, SCAN_LIMIT) == desks[cut..|desks|];
    if cut <= at {
      CountTo(desks, cut, at, desk);
    } else {
      CountTo(desks, at, cut, desk);
      assert desks[at..cut][0] == desk;
    }
  }

  lemma CountTo(desks: seq<string>, from: nat, to: nat, desk: string)
    requires from <= to <= |desks|
    ensures Count(desks[..to], desk) == Count(desks[..from], desk) + Count(desks[from..to], desk)
  {
    assert desks[..to] == desks[..from] + desks[from..to];
    CountSplit(desks[..from], desks[from..to], desk);
  }

  /** What a scan shows of a desk: its newest jobs, from this one on. */
  function FirstShown(jobs: seq<Job>, shown: nat): nat {
    if |jobs| <= shown then 0 else |jobs| - shown
  }

  class Service {
    var jobs: seq<Job>
    var doNotCall: set<string>
    var policy: Policy

    constructor (policy: Policy)
      ensures State() == Desk([], {}, policy)
    {
      jobs, doNotCall, this.policy := [], {}, policy;
    }

    function State(): Desk
      reads this
    {
      Desk(jobs, doNotCall, policy)
    }

    method SuppressNumber(phone: string)
      modifies this
      ensures State() == Suppress(old(State()), phone)
    {
      var n := Phone.Normalise(phone);
      doNotCall := doNotCall + {n};
      var first := if |jobs| <= LIST_LIMIT then 0 else |jobs| - LIST_LIMIT;
      for i := first to |jobs|
        modifies `jobs
        invariant |jobs| == |old(jobs)|
        invariant forall k | 0 <= k < i :: jobs[k] == Dropped(old(jobs)[k], n, k >= |jobs| - LIST_LIMIT)
        invariant forall k | i <= k < |jobs| :: jobs[k] == old(jobs)[k]
      {
        if jobs[i].to == n && (jobs[i].status == Scheduled || jobs[i].status == Retry) {
          jobs := jobs[i := jobs[i].(status := Suppressed)];
        }
      }
      assert jobs == Suppress(old(State()), phone).jobs;
    }

    method CountToday(to: string, now: int) returns (n: nat)
      ensures n == DailyCount(State(), to, now)
    {
      var cutoff := now - DAY;
      var listed := Newest(jobs, LIST_LIMIT);
      n := 0;
      for i := 0 to |listed|
        invariant n == CallsSince(listed[..i], to, cutoff)
      {
        var j := listed[i];
        CallsSinceSnoc(listed[..i], j, to, cutoff);
        assert listed[..i + 1] == listed[..i] + [j];
        if j.to == to {
          ghost var before := n;
          for k := 0 to |j.attempts|
            invariant n == before + AttemptsSince(j.attempts[..k], cutoff)
          {
            AttemptsSinceSnoc(j.attempts[..k], j.attempts[k], cutoff);
            assert j.attempts[..k + 1] == j.attempts[..k] + [j.attempts[k]];
            if j.attempts[k].at >= cutoff {
              n := n + 1;
            }
          }
          assert j.attempts[..|j.attempts|] == j.attempts;
        }
      }
      assert listed[..|listed|] == listed;
    }

    /** Decides between retrying, giving up and completing; None when no calling window exists. */
    method SettleJob(j: Job, outcome: Outcome, now: int) returns (settled: Option<Job>)
      ensures settled == Settle(policy, j, outcome, now)
    {
      var k := j.(outcome := Some(outcome));
      if outcome in NO_CONTACT && |k.attempts| < k.maxAttempts {
        var at := FindNextWindow(policy.hours, now + policy.retryGapMin * MINUTE);
        if at.None? {
          return None;
        }
        k := k.(status := Retry, scheduledAt := at.value);
        if k.notAfter.Some? && k.scheduledAt > k.notAfter.value {
          k := k.(status := Exhausted, completedAt := Some(now));
        }
      } else if outcome in NO_CONTACT {
        k := k.(status := Exhausted, completedAt := Some(now));
      } else {
        k := k.(status := Completed, completedAt := Some(now));
      }
      return Some(k);
    }

    /** Stores a settled job; `raised` when no calling window exists and nothing is stored. */
    method FinishAttempt(i: nat, j: Job, outcome: Outcome, now: int) returns (raised: bool)
      requires i < |jobs|
      modifies this
      ensures State() == AfterAttempt(old(State()), i, j, outcome, now)
      ensures raised <==> Settle(old(policy), j, outcome, now).None?
    {
      var settled := SettleJob(j, outcome, now);
      if settled.None? {
        return true;
      }
      jobs := jobs[i := settled.value];
      if outcome == OptOut {
        SuppressNumber(j.to);
      }
      if outcome == WrongNumber {
        SuppressNumber(j.to);
      }
      return false;
    }

    /** The gates at dial time, in their order. */
    method Decide(j: Job, now: int, manual: bool, assistant: bool) returns (v: Verdict)
      ensures v == Gate(State(), j, now, manual, assistant)
    {
      if j.notAfter.Some? && now > j.notAfter.value {
        return Close(Cancelled);
      }
      if Phone.Normalise(j.to) in doNotCall {
        return Close(Suppressed);
      }
      if !policy.enabled {
        return Defer(now + policy.retryGapMin * MINUTE);
      }
      if !manual && !policy.hours.InWindow(now) {
        var at := FindNextWindow(policy.hours, now);
        return DeferTo(at);
      }
      if !manual {
        var today := CountToday(j.to, now);
        if today >= policy.dailyCap {
          var at := FindNextWindow(policy.hours, now + DAY);
          return DeferTo(at);
        }
      }
      return if assistant then Dial else Close(Failed);
    }

    /** The gates and then the dial, on a job as it was read; `raised` when no calling window exists. */
    method DispatchJob(i: nat, j: Job, now: int, manual: bool, assistant: bool, placed: Option<CallId>)
      returns (raised: bool)
      requires i < |jobs| && jobs[i] == j
      modifies this
      ensures State() == Dispatch(old(State()), i, now, manual, assistant, placed)
      ensures raised <==> DispatchRaises(old(State()), i, now, manual, assistant, placed)
    {
      raised := false;
      var v := Decide(j, now, manual, assistant);
      match v
      case Close(status) => jobs := jobs[i := j.(status := status)];
      case Defer(at) => jobs := jobs[i := j.(scheduledAt := at)];
      case Raises => raised := true;
      case Dial =>
        var n := |j.attempts| + 1;
        if placed.None? {
          var failed := j.(attempts := j.attempts + [Attempt(n, now, None, DialFailed)]);
          raised := FinishAttempt(i, failed, DialFailed, now);
        } else {
          jobs := jobs[i := j.(attempts := j.attempts + [Attempt(n, now, placed, Unknown)], callId := placed, status := Dialing)];
        }
    }

    /** A call record closes the attempt it belongs to. */
    method OnCallEnded(id: CallId, shown: nat, reported: Outcome, raisedTicket: bool, at: int)
      modifies this
      ensures State() == CallEnded(old(State()), id, shown, reported, raisedTicket, at)
    {
      var found := JobOf(State(), id, shown);
      if found.None? || !jobs[found.value].status.Active() {
        return;
      }
      var j := jobs[found.value];
      var outcome := reported;
      if j.attempts != [] && j.Last().outcome != Unknown {
        outcome := j.Last().outcome;
      }
      j := j.WithLast(outcome);
      if raisedTicket && outcome !in TERMINAL_CONTACT && !j.hasTicket {
        outcome := Ticketed;
      }
      var _ := FinishAttempt(found.value, j, outcome, at);
    }

    /**
     Fails every dial nobody reported back on, of the `shown` newest jobs that a scan over all desks
     shows of this one.  Unless a retry finds no calling window, those left stale are the ones not shown.
     */
    method ExpireStale(now: int, shown: nat) returns (raised: bool, ghost ops: seq<Op>)
      modifies this
      ensures State() == Run(old(State()), ops) && forall op | op in ops :: op.ExpireOp? && op.now == now
      ensures |jobs| == |old(jobs)| && forall k | 0 <= k < FirstShown(jobs, shown) :: jobs[k] == old(jobs)[k]
      ensures !raised ==> forall k | 0 <= k < |jobs| ::
        IsStale(State(), jobs[k], now) <==> k < FirstShown(jobs, shown) && IsStale(old(State()), old(jobs)[k], now)
      ensures raised ==> !policy.hours.HasDay()
    {
      ops, raised := [], false;
      var i, first := |jobs|, FirstShown(jobs, shown);
      while i > first
        invariant first <= i <= |jobs| == |old(jobs)| && policy == old(policy)
        invariant State() == Run(old(State()), ops) && forall op | op in ops :: op.ExpireOp? && op.now == now
        invariant forall k | 0 <= k < i :: jobs[k] == old(jobs)[k]
        invariant forall k | i <= k < |jobs| :: !IsStale(State(), jobs[k], now)
      {
        i := i - 1;
        var j := jobs[i];
        if !j.status.Active() || j.attempts == [] || now - j.Last().at < policy.staleDialMin * MINUTE {
          continue;
        }
        RunThen(old(State()), ops, ExpireOp(i, now));
        ops := ops + [ExpireOp(i, now)];
        raised := ExpireJob(i, now);
        if raised {
          return;
        }
      }
    }

    method ExpireJob(i: nat, now: int) returns (raised: bool)
      requires i < |jobs| && IsStale(State(), jobs[i], now)
      modifies this
      ensures State() == Step(old(State()), ExpireOp(i, now))
      ensures |jobs| == |old(jobs)| && policy == old(policy) && forall k | 0 <= k < |jobs| && k != i :: jobs[k] == old(jobs)[k]
      ensures if raised then !policy.hours.HasDay() else !jobs[i].status.Active()
    {
      raised := FinishAttempt(i, jobs[i].WithLast(DialFailed), DialFailed, now);
      RaisesOnlyWithoutDays(policy.hours, now + policy.retryGapMin * MINUTE);
    }

    /** Waiting jobs whose time has come, of those a scan shows, earliest first. */
    method Due(now: int, shown: nat) returns (due: seq<Listed>)
      ensures DueAt(jobs, now, shown, due)
    {
      due := [];
      var first := FirstShown(jobs, shown);
      for i := first to |jobs|
        invariant forall e | e in due :: first <= e.i < i && jobs[e.i] == e.job && e.job.status.Pending() && e.job.scheduledAt <= now
        invariant ByTime(due)
        invariant forall k | first <= k < i && jobs[k].status.Pending() && jobs[k].scheduledAt <= now :: Listed(k, jobs[k]) in due
      {
        if jobs[i].status.Pending() && jobs[i].scheduledAt <= now {
          due := InsertByTime(due, Listed(i, jobs[i]));
        }
      }
    }

    /**
     One turn of the loop: expire, then dispatch what is due, each job once and in order of its time.
     Jobs are read once, before the first dispatch; each is still as it was read, and still waiting,
     when its turn comes.  The turn ends early only where a job finds no calling window.  Both readings
     are scans over all desks, which show the `shown` newest jobs of this one.
     */
    method Tick(now: int, shown: nat, assistant: nat -> bool, dial: nat -> Option<CallId>)
      returns (n: nat, raised: bool, ghost expired: seq<Op>, ghost listed: seq<Listed>)
      modifies this
      ensures forall op | op in expired :: op.ExpireOp? && op.now == now
      ensures n <= |listed| && State() == Run(Run(old(State()), expired), Dispatches(listed, now, assistant, dial)[..n])
      ensures !raised ==> DueAt(Run(old(State()), expired).jobs, now, shown, listed) && n == |listed|
      ensures raised ==> !policy.hours.HasDay()
    {
      n, listed := 0, [];
      raised, expired := ExpireStale(now, shown);
      if raised {
        return;
      }
      ghost var start := State();
      var due := Due(now, shown);
      listed := due;
      for k := 0 to |due|
        invariant n == k && !raised && State() == Run(start, Dispatches(due, now, assistant, dial)[..k])
        invariant forall m | k <= m < |due| :: due[m].i < |jobs| && jobs[due[m].i] == due[m].job && due[m].job.status.Pending()
      {
        var Listed(i, job) := due[k];
        ghost var all, op := Dispatches(due, now, assistant, dial), DispatchOp(i, now, false, assistant(i), dial(i));
        assert all[..k + 1] == all[..k] + [op];
        RunThen(start, all[..k], op);
        raised := DispatchNext(i, job, now, assistant(i), dial(i));
        if raised {
          return;
        }
        n := n + 1;
      }
    }

    /** One automated dispatch of the turn: no other job changes. */
    method DispatchNext(i: nat, j: Job, now: int, assistant: bool, placed: Option<CallId>) returns (raised: bool)
      requires i < |jobs| && jobs[i] == j && j.status.Pending()
      modifies this
      ensures State() == Step(old(State()), DispatchOp(i, now, false, assistant, placed))
      ensures |jobs| == |old(jobs)| && policy == old(policy) && forall k | 0 <= k < |jobs| && k != i :: jobs[k] == old(jobs)[k]
      ensures raised ==> State() == old(State()) && !policy.hours.HasDay()
    {
      ghost var before := State();
      OthersUntouched(before, i, now, assistant, placed);
      raised := DispatchJob(i, j, now, false, assistant, placed);
      if raised {
        RaisingHasNoDay(before, i, now, false, assistant, placed);
        RaisingChangesNothing(before, i, now, false, assistant, placed);
      }
    }
  }

  lemma RaisingChangesNothing(d: Desk, i: nat, now: int, manual: bool, assistant: bool, placed: Option<CallId>)
    requires i < |d.jobs| && DispatchRaises(d, i, now, manual, assistant, placed)
    ensures Dispatch(d, i, now, manual, assistant, placed) == d
  {
  }

  /** `due` lists exactly the waiting jobs whose time has come, among those shown, earliest first. */
  ghost predicate DueAt(jobs: seq<Job>, now: int, shown: nat, due: seq<Listed>) {
    && ByTime(due)
    && (forall e | e in due ::
          && FirstShown(jobs, shown) <= e.i < |jobs| && jobs[e.i] == e.job
          && e.job.status.Pending() && e.job.scheduledAt <= now)
    && (forall k | FirstShown(jobs, shown) <= k < |jobs| && jobs[k].status.Pending() && jobs[k].scheduledAt <= now ::
          Listed(k, jobs[k]) in due)
  }

  /** One automated dispatch for each job listed, in order. */
  ghost function Dispatches(due: seq<Listed>, now: int, assistant: nat -> bool, dial: nat -> Option<CallId>): (ops: seq<Op>)
    ensures |ops| == |due|
  {
    seq(|due|, k requires 0 <= k < |due| => DispatchOp(due[k].i, now, false, assistant(due[k].i), dial(due[k].i)))
  }

  /** Dispatching one job leaves every other as it was. */
  lemma OthersUntouched(d: Desk, i: nat, now: int, assistant: bool, placed: Option<CallId>)
    requires i < |d.jobs|
    ensures var e := Dispatch(d, i, now, false, assistant, placed);
      |e.jobs| == |d.jobs| && e.policy == d.policy && forall k | 0 <= k < |d.jobs| && k != i :: e.jobs[k] == d.jobs[k]
  {
  }

  ghost predicate ByTime(due: seq<Listed>) {
    forall a, b | 0 <= a < b < |due| :: due[a].i != due[b].i && due[a].job.scheduledAt <= due[b].job.scheduledAt
  }

  method InsertByTime(due: seq<Listed>, e: Listed) returns (r: seq<Listed>)
    requires ByTime(due) && forall x | x in due :: x.i != e.i
    ensures forall x :: x in r <==> x in due || x == e
    ensures ByTime(r)
  {
    var k := |due|;
    while k > 0 && due[k - 1].job.scheduledAt > e.job.scheduledAt
      invariant 0 <= k <= |due|
      invariant k < |due| ==> due[k].job.scheduledAt > e.job.scheduledAt
    {
      k := k - 1;
    }
    r := due[..k] + [e] + due[k..];
    InsertedByTime(due, e, k);
    assert due == due[..k] + due[k..];
  }

  lemma InsertedByTime(due: seq<Listed>, e: Listed, k: nat)
    requires ByTime(due) && k <= |due| && forall x | x in due :: x.i != e.i
    requires k > 0 ==> due[k - 1].job.scheduledAt <= e.job.scheduledAt
    requires k < |due| ==> e.job.scheduledAt <= due[k].job.scheduledAt
    ensures ByTime(due[..k] + [e] + due[k..])
  {
    var r := due[..k] + [e] + due[k..];
    forall a, b | 0 <= a < b < |r|
      ensures r[a].i != r[b].i && r[a].job.scheduledAt <= r[b].job.scheduledAt
    {
      var x, y := if a < k then a else a - 1, if b < k then b else b - 1;
      assert a != k ==> r[a] == due[x];
      assert b != k ==> r[b] == due[y];
    }
  }
}
