/** What holds of a trial at every point of its life. */
module TrialTimeline {
  import opened Wrappers
  import opened Clock
  import opened Subscriptions

  /**
   The billing period never ends before a running trial; a trial reason goes with its own status,
   with no payment details, and with an instant late enough for it.
   */
  ghost predicate OnTime(terms: Terms, s: Sub, clock: int) {
    && (s.status == Trialing ==>
          s.trialEndsAt.Some? && (s.reason.None? || !s.reason.value.OfTrial())
          && (!s.paidFor ==> s.trialEndsAt.value <= s.periodEnd))
    && (s.reason.Some? && s.reason.value.OfTrial() ==>
          && !s.paidFor && s.trialEndsAt.Some?
          && (s.reason.value == Grace ==> s.status == PastDue && clock >= s.trialEndsAt.value)
          && (s.reason.value == CallsPaused ==>
                s.status == Suspended && clock >= s.trialEndsAt.value + terms.graceDays * DAY)
          && (s.reason.value == AccountClosed ==>
                s.status == Cancelled && clock >= s.trialEndsAt.value + terms.closeDays * DAY))
  }

  /** Reminders go out in the order 7, 3, 1, and no lifecycle notice is sent ahead of its turn. */
  ghost predicate NoticesInOrder(s: Sub) {
    s.UnpaidTrial() ==>
      && (Reminder1 in s.notices ==> Reminder3 in s.notices)
      && (Reminder3 in s.notices ==> Reminder7 in s.notices)
      && (s.status == Trialing ==> s.notices <= REMINDERS)
      && (s.status == PastDue ==> PausedNotice !in s.notices && Closed !in s.notices)
      && (s.status == Suspended ==> Closed !in s.notices)
  }

  ghost predicate Sound(terms: Terms, s: Option<Sub>, clock: int) {
    s.Some? ==> OnTime(terms, s.value, clock) && NoticesInOrder(s.value)
  }

  lemma CurrentSound(terms: Terms, s: Option<Sub>, since: int, now: int, month: Month)
    requires Sound(terms, s, since) && since <= now && month.Around(now)
    ensures Sound(terms, Some(Current(terms, s, now, month)), now)
  {
  }

  lemma SweptSound(terms: Terms, s: Sub, since: int, now: int)
    requires Sound(terms, Some(s), since) && since <= now
    ensures Sound(terms, Some(Swept(terms, s, now).0), now)
  {
  }

  lemma PlanChangedSound(terms: Terms, s: Sub, plan: string, coupon: Option<CouponGiven>, now: int)
    requires Sound(terms, Some(s), now)
    ensures Sound(terms, Some(PlanChanged(terms, s, plan, coupon, now)), now)
  {
  }

  lemma CheckedOutSound(terms: Terms, s: Sub, simulated: bool, now: int)
    requires Sound(terms, Some(s), now)
    ensures Sound(terms, Some(CheckedOut(s, simulated)), now)
  {
  }

  lemma ExtendedSound(terms: Terms, s: Sub, days: int, now: int)
    requires Sound(terms, Some(s), now)
    ensures Sound(terms, Some(Extended(s, days, now)), now)
  {
  }

  lemma StepSound(terms: Terms, s: Option<Sub>, op: Op, since: int)
    requires Sound(terms, s, since) && Timely([op], since)
    ensures Sound(terms, Step(terms, s, op).0, op.now)
  {
    if op.Sweep? {
      if s.Some? {
        SweptSound(terms, s.value, since, op.now);
      }
    } else {
      var sub := Current(terms, s, op.now, op.month);
      CurrentSound(terms, s, since, op.now, op.month);
      match op
      case ChangePlan(plan, coupon, now, _) => PlanChangedSound(terms, sub, plan, coupon, now);
      case Checkout(plan, simulated, now, _) =>
        PlanChangedSound(terms, sub, plan, None, now);
        CheckedOutSound(terms, PlanChanged(terms, sub, plan, None, now), simulated, now);
      case Extend(days, now, _) => ExtendedSound(terms, sub, days, now);
      case _ =>
    }
  }

  /**
   Over any run of reads, plan changes, checkouts, extensions, conversions and sweeps, starting
   from no subscription or from a sound one, the timeline stays sound.
   */
  lemma {:induction false} RunSound(terms: Terms, s: Option<Sub>, ops: seq<Op>, since: int)
    requires Sound(terms, s, since) && Timely(ops, since)
    ensures ops != [] ==> Sound(terms, Run(terms, s, ops), ops[|ops| - 1].now)
    decreases |ops|
  {
    if ops != [] {
      var t := Step(terms, s, ops[0]).0;
      StepSound(terms, s, ops[0], since);
      RunSound(terms, t, ops[1..], ops[0].now);
    }
  }

  /** Calls stop no earlier than promised, and the account is closed no earlier than promised. */
  lemma NeverEarly(terms: Terms, ops: seq<Op>, since: int)
    requires Timely(ops, since) && ops != []
    ensures var s, now := Run(terms, None, ops), ops[|ops| - 1].now;
      s.Some? && s.value.UnpaidTrial() && s.value.status != Trialing ==>
        && s.value.trialEndsAt.value <= now
        && (s.value.status == PastDue || s.value.status == Suspended || s.value.status == Cancelled)
        && (s.value.status == Suspended ==> s.value.trialEndsAt.value + terms.graceDays * DAY <= now)
        && (s.value.status == Cancelled ==> s.value.trialEndsAt.value + terms.closeDays * DAY <= now)
    requires 0 <= terms.graceDays && 0 <= terms.closeDays
  {
    RunSound(terms, None, ops, since);
  }

  /** What the dashboard says about calls is what the phone system does, before and after a roll. */
  lemma ViewAgreesWithService(terms: Terms, s: Sub, clock: int, now: int, month: Month)
    requires OnTime(terms, s, clock) && s.UnpaidTrial()
    ensures ViewTrial(terms, s, now).callsAnswered == s.Serves()
    ensures Current(terms, Some(s), now, month).Serves() == s.Serves()
  {
  }

  // -- notices ---------------------------------------------------------------------------------

  function Rank(n: Notice): nat {
    match n
    case Reminder7 => 0
    case Reminder3 => 1
    case Reminder1 => 2
    case Expired => 3
    case PausedNotice => 4
    case Closed => 5
  }

  /** No notice of this rank or below can be sent again before the trial is extended. */
  ghost function Floor(s: Option<Sub>): int {
    if s.None? then -1
    else if !s.value.UnpaidTrial() then 5
    else
      match s.value.status
      case Trialing =>
        if Reminder1 in s.value.notices then 2 else if Reminder3 in s.value.notices then 1
        else if Reminder7 in s.value.notices then 0 else -1
      case PastDue => 3
      case Suspended => 4
      case _ => 5
  }

  lemma SweptRises(terms: Terms, s: Sub, since: int, now: int)
    requires Sound(terms, Some(s), since) && since <= now
    ensures var (t, notice) := Swept(terms, s, now);
      && Floor(Some(s)) <= Floor(Some(t))
      && (notice.Some? ==> Floor(Some(s)) < Rank(notice.value) <= Floor(Some(t)))
  {
  }

  lemma {:induction false} StepRises(terms: Terms, s: Option<Sub>, op: Op, since: int)
    requires Sound(terms, s, since) && Timely([op], since) && !op.Extend?
    ensures var (t, notice) := Step(terms, s, op);
      && Floor(s) <= Floor(t)
      && (notice.Some? ==> Floor(s) < Rank(notice.value) <= Floor(t))
  {
    if op.Sweep? && s.Some? {
      SweptRises(terms, s.value, since, op.now);
    }
  }

  ghost predicate RanksIncrease(sent: seq<Notice>) {
    forall i, j | 0 <= i < j < |sent| :: Rank(sent[i]) < Rank(sent[j])
  }

  /**
   Between two extensions every notice is sent at most once, reminders count down, and expiry,
   pause and closure follow in that order: the ranks of the notices sent strictly increase.
   */
  lemma {:induction false} NoticesRunInOrder(terms: Terms, s: Option<Sub>, ops: seq<Op>, since: int)
    requires Sound(terms, s, since) && Timely(ops, since)
    requires forall k | 0 <= k < |ops| :: !ops[k].Extend?
    ensures RanksIncrease(Sent(terms, s, ops))
    ensures forall n | n in Sent(terms, s, ops) :: Floor(s) < Rank(n)
    decreases |ops|
  {
    if ops != [] {
      var (t, notice) := Step(terms, s, ops[0]);
      assert forall k | 0 <= k < |ops[1..]| :: ops[1..][k] == ops[k + 1];
      StepSound(terms, s, ops[0], since);
      StepRises(terms, s, ops[0], since);
      NoticesRunInOrder(terms, t, ops[1..], ops[0].now);
      var rest := Sent(terms, t, ops[1..]);
      assert forall i | 0 <= i < |rest| :: rest[i] in rest;
    }
  }

  /** Past both deadlines, three sweeps close any unpaid trial, whatever stage it had reached. */
  lemma {:induction false} ThreeSweepsClose(terms: Terms, s: Sub, since: int, t1: int, t2: int, t3: int)
    requires Sound(terms, Some(s), since) && s.UnpaidTrial() && since <= t1 <= t2 <= t3
    requires s.trialEndsAt.value <= t1
    requires s.trialEndsAt.value + terms.graceDays * DAY <= t1 && s.trialEndsAt.value + terms.closeDays * DAY <= t1
    ensures var s3 := Run(terms, Some(s), [Sweep(t1), Sweep(t2), Sweep(t3)]);
      s3.Some? && s3.value.status == Cancelled && s3.value.reason == Some(AccountClosed)
  {
    var s1 := Swept(terms, s, t1).0;
    var s2 := Swept(terms, s1, t2).0;
    var s3 := Swept(terms, s2, t3).0;
    SweptSound(terms, s, since, t1);
    SweptSound(terms, s1, t1, t2);
    var ops := [Sweep(t1), Sweep(t2), Sweep(t3)];
    assert ops[1..] == [Sweep(t2), Sweep(t3)] && ops[1..][1..] == [Sweep(t3)] && ops[1..][1..][1..] == [];
    assert Run(terms, Some(s), ops) == Run(terms, Some(s1), ops[1..]) == Run(terms, Some(s2), ops[1..][1..]);
    assert Run(terms, Some(s2), [Sweep(t3)]) == Some(s3);
  }

  /** The notices sent are exactly those due to the tenants reached, one each at most. */
  ghost predicate FiredSoFar(fired: seq<(string, Notice)>, due: map<string, (Sub, Option<Notice>)>, reached: seq<string>) {
    && (forall t | t in reached :: t in due)
    && (forall f | f in fired :: f.0 in reached && due[f.0].1 == Some(f.1))
    && (forall t | t in reached && due[t].1.Some? :: (t, due[t].1.value) in fired)
    && (forall a, b | 0 <= a < b < |fired| :: fired[a].0 != fired[b].0)
  }

  lemma FiredNext(fired: seq<(string, Notice)>, due: map<string, (Sub, Option<Notice>)>, reached: seq<string>, t: string)
    requires FiredSoFar(fired, due, reached) && t !in reached && t in due
    ensures FiredSoFar(if due[t].1.Some? then fired + [(t, due[t].1.value)] else fired, due, reached + [t])
  {
  }

  /** The tenants reached have taken their step, the others not. */
  ghost predicate SweptSoFar(was: map<string, Sub>, subs: map<string, Sub>, due: map<string, (Sub, Option<Notice>)>,
                             reached: seq<string>) {
    && subs.Keys == was.Keys == due.Keys
    && forall t | t in subs :: subs[t] == if t in reached then due[t].0 else was[t]
  }

  lemma SweptNext(was: map<string, Sub>, subs: map<string, Sub>, due: map<string, (Sub, Option<Notice>)>,
                  reached: seq<string>, t: string)
    requires SweptSoFar(was, subs, due, reached) && t in subs && t !in reached
    ensures SweptSoFar(was, subs[t := due[t].0], due, reached + [t]) && subs[t] == was[t]
  {
  }

  /** The sweep stores nothing without sending something. */
  lemma UntoldUnchanged(terms: Terms, s: Sub, now: int)
    requires Swept(terms, s, now).1.None?
    ensures Swept(terms, s, now).0 == s
  {
  }

  // -- the sweep over all tenants ----------------------------------------------------------------

  class TrialService {
    const terms: Terms
    var subs: map<string, Sub>

    constructor (terms: Terms)
      ensures this.terms == terms && subs == map[]
    {
      this.terms, subs := terms, map[];
    }

    /** Each tenant listed takes its one step, and is told of at most one thing; the others wait. */
    method SweepTrials(tenants: seq<string>, now: int) returns (fired: seq<(string, Notice)>)
      requires forall t | t in tenants :: t in subs
      requires forall i, j | 0 <= i < j < |tenants| :: tenants[i] != tenants[j]
      modifies `subs
      ensures subs.Keys == old(subs).Keys
      ensures forall t | t in subs :: subs[t] == if t in tenants then Swept(terms, old(subs)[t], now).0 else old(subs)[t]
      ensures forall t, n :: (t, n) in fired <==> t in tenants && Swept(terms, old(subs)[t], now).1 == Some(n)
      ensures forall i, j | 0 <= i < j < |fired| :: fired[i].0 != fired[j].0
    {
      ghost var due := map t | t in subs :: Swept(terms, subs[t], now);
      fired := SweepList(tenants, now, due);
      forall t, n
        ensures (t, n) in fired <==> t in tenants && due[t].1 == Some(n)
      {
        if (t, n) in fired {
          assert (t, n).0 == t;
        }
      }
    }

    method SweepList(tenants: seq<string>, now: int, ghost due: map<string, (Sub, Option<Notice>)>)
      returns (fired: seq<(string, Notice)>)
      requires due == map t | t in subs :: Swept(terms, subs[t], now)
      requires forall t | t in tenants :: t in subs
      requires forall i, j | 0 <= i < j < |tenants| :: tenants[i] != tenants[j]
      modifies `subs
      ensures SweptSoFar(old(subs), subs, due, tenants) && FiredSoFar(fired, due, tenants)
    {
      fired := [];
      for i := 0 to |tenants|
        invariant SweptSoFar(old(subs), subs, due, tenants[..i]) && FiredSoFar(fired, due, tenants[..i])
      {
        var tenant := tenants[i];
        assert tenants[..i + 1] == tenants[..i] + [tenant] && tenant in tenants;
        SweptNext(old(subs), subs, due, tenants[..i], tenant);
        FiredNext(fired, due, tenants[..i], tenant);
        var event := SweepOne(tenant, now, due[tenant]);
        fired := if event.Some? then fired + [(tenant, event.value)] else fired;
      }
      assert tenants[..|tenants|] == tenants;
    }

    method SweepOne(tenant: string, now: int, ghost due: (Sub, Option<Notice>)) returns (event: Option<Notice>)
      requires tenant in subs && due == Swept(terms, subs[tenant], now)
      modifies `subs
      ensures subs == old(subs)[tenant := due.0] && event == due.1
    {
      var next;
      next, event := SweepSub(subs[tenant], now);
      if event.Some? {
        subs := subs[tenant := next];
      } else {
        UntoldUnchanged(terms, subs[tenant], now);
      }
    }

    method SweepSub(sub: Sub, now: int) returns (next: Sub, event: Option<Notice>)
      ensures (next, event) == Swept(terms, sub, now)
    {
      next, event := sub, None;
      assert sub.notices + {} == sub.notices;
      if !sub.UnpaidTrial() {
        return;
      }
      var ends, sent := sub.trialEndsAt.value, sub.notices;
      if sub.status == Trialing {
        if now >= ends {
          event, sent := Some(Expired), sent + REMINDERS;
          next := sub.(status := PastDue, reason := Some(Grace));
        } else {
          var due := RemindersDue(DaysUntil(ends, now));
          var unsent := due - sent;
          if unsent != {} {
            event, sent := Some(Latest(unsent)), sent + due;
          }
        }
      } else if sub.status == PastDue && now >= ends + terms.graceDays * DAY {
        event := Some(PausedNotice);
        next := sub.(status := Suspended, reason := Some(CallsPaused));
      } else if sub.status == Suspended && now >= ends + terms.closeDays * DAY {
        event := Some(Closed);
        next := sub.(status := Cancelled, reason := Some(AccountClosed));
      }
      if event.None? || event.value in sub.notices {
        next, event := sub, None;
        return;
      }
      next := next.(notices := sent + {event.value});
    }
  }
}
