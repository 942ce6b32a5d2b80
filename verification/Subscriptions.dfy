/** Subscriptions, their trials and the operations that change them (apps/api/parlio_api/billing.py). */
module Subscriptions {
  import opened Wrappers
  import opened Clock

  datatype Status = Trialing | Active | PastDue | Paused | Suspended | Cancelled

  /** The three reasons the trial lifecycle sets, and anything staff may have typed. */
  datatype Reason = Grace | CallsPaused | AccountClosed | Other(text: string) {
    predicate OfTrial() {
      !Other?
    }
  }

  datatype Notice = Reminder7 | Reminder3 | Reminder1 | Expired | PausedNotice | Closed

  const REMINDERS := {Reminder7, Reminder3, Reminder1}

  datatype Sub = Sub(plan: string, status: Status, periodStart: int, periodEnd: int, coupon: Option<string>,
                     couponMonthsLeft: Option<int>, paidFor: bool, trialEndsAt: Option<int>,
                     reason: Option<Reason>, notices: set<Notice>, createdAt: int)
  {
    /** A trial, running or lapsed, with no payment details on file. */
    predicate UnpaidTrial() {
      !paidFor && trialEndsAt.Some? && (status == Trialing || (reason.Some? && reason.value.OfTrial()))
    }

    /** Are this tenant's calls answered? */
    predicate Serves() {
      status == Trialing || status == Active || status == PastDue
    }
  }

  /** The platform's terms; `trialDays` holds the plans that set their own trial length. */
  datatype Terms = Terms(trialDays: map<string, int>, defaultTrialDays: int, graceDays: int, closeDays: int) {
    function TrialDaysFor(plan: string): int {
      if plan in trialDays then trialDays[plan] else defaultTrialDays
    }
  }

  /** The calendar month around an instant. */
  datatype Month = Month(start: int, end: int) {
    predicate Around(now: int) {
      start <= now < end
    }
  }

  // -- steps -----------------------------------------------------------------------------------

  function Opened(terms: Terms, now: int, month: Month): Sub {
    var days := terms.TrialDaysFor("starter");
    var trialEnd := now + days * DAY;
    Sub("starter", if days > 0 then Trialing else Active, month.start, Max(month.end, trialEnd), None, None, false,
        if days > 0 then Some(trialEnd) else None, None, {}, now)
  }

  /** Closing a period: the coupon counts down, and a trial without a card lapses into grace. */
  function Rolled(s: Sub, month: Month): Sub {
    var left := if s.couponMonthsLeft.Some? then Some(s.couponMonthsLeft.value - 1) else None;
    var coupon := if left.None? || left.value > 0 then s.coupon else None;
    var lapses := s.status == Trialing && !s.paidFor;
    s.(periodStart := month.start, periodEnd := month.end, coupon := coupon,
       couponMonthsLeft := if coupon.Some? then left else None,
       status := if lapses then PastDue else s.status,
       reason := if lapses then Some(Grace) else s.reason)
  }

  /** Reading a subscription opens one if there is none, and closes a period that is over. */
  function Current(terms: Terms, s: Option<Sub>, now: int, month: Month): Sub {
    match s
    case None => Opened(terms, now, month)
    case Some(sub) => if now >= sub.periodEnd then Rolled(sub, month) else sub
  }

  /** `coupon` is the code given, with the months it runs for. */
  datatype CouponGiven = CouponGiven(code: string, months: Option<int>)

  function PlanChanged(terms: Terms, s: Sub, plan: string, coupon: Option<CouponGiven>, now: int): Sub {
    var days := terms.TrialDaysFor(plan);
    var trialEnd := s.createdAt + days * DAY;
    var t :=
      if s.status == Trialing && s.plan != plan then
        if days <= 0 || trialEnd <= now then s.(plan := plan, status := Active, trialEndsAt := None)
        else s.(plan := plan, trialEndsAt := Some(trialEnd), periodEnd := Max(s.periodEnd, trialEnd))
      else s.(plan := plan);
    if coupon.Some? then t.(coupon := Some(coupon.value.code), couponMonthsLeft := coupon.value.months) else t
  }

  /** Only the simulated provider takes payment on the spot; the others report back later. */
  function CheckedOut(s: Sub, simulated: bool): Sub {
    if simulated
    then s.(status := Active, paidFor := true,
            reason := if s.reason.Some? && s.reason.value.OfTrial() then None else s.reason)
    else s
  }

  function Extended(s: Sub, days: int, now: int): Sub {
    var newEnd := Max(if s.trialEndsAt.Some? then s.trialEndsAt.value else s.periodEnd, now) + days * DAY;
    var t := s.(trialEndsAt := Some(newEnd), periodEnd := Max(s.periodEnd, newEnd));
    if s.status == Trialing || s.UnpaidTrial() then t.(status := Trialing, reason := None, notices := {}) else t
  }

  function Converted(s: Sub): Sub {
    s.(status := Active, trialEndsAt := None, reason := None)
  }

  /** Whole days until `t`, rounded up. */
  function DaysUntil(t: int, now: int): int {
    (t - now + DAY - 1) / DAY
  }

  /** Reminders whose day has come. */
  function RemindersDue(left: int): set<Notice> {
    (if left <= 7 then {Reminder7} else {}) + (if left <= 3 then {Reminder3} else {})
    + (if left <= 1 then {Reminder1} else {})
  }

  /** The latest of some reminders. */
  function Latest(unsent: set<Notice>): Notice {
    if Reminder1 in unsent then Reminder1 else if Reminder3 in unsent then Reminder3 else Reminder7
  }

  /** What the sweep does to one subscription: the notice it sends, if any, and the result. */
  function Swept(terms: Terms, s: Sub, now: int): (Sub, Option<Notice>) {
    if !s.UnpaidTrial() then (s, None)
    else
      var ends := s.trialEndsAt.value;
      if s.status == Trialing then
        if now >= ends then
          Send(s, Expired, s.(status := PastDue, reason := Some(Grace)), REMINDERS)
        else
          var due := RemindersDue(DaysUntil(ends, now));
          if due - s.notices == {} then (s, None) else Send(s, Latest(due - s.notices), s, due)
      else if s.status == PastDue && now >= ends + terms.graceDays * DAY then
        Send(s, PausedNotice, s.(status := Suspended, reason := Some(CallsPaused)), {})
      else if s.status == Suspended && now >= ends + terms.closeDays * DAY then
        Send(s, Closed, s.(status := Cancelled, reason := Some(AccountClosed)), {})
      else (s, None)
  }

  /** A notice already sent stops the whole step; otherwise it and `also` count as sent. */
  function Send(s: Sub, notice: Notice, next: Sub, also: set<Notice>): (Sub, Option<Notice>) {
    if notice in s.notices then (s, None) else (next.(notices := s.notices + also + {notice}), Some(notice))
  }

  datatype TrialState = NoTrial | Running | InGrace | OnHold | Ended

  datatype TrialView = TrialView(state: TrialState, daysLeft: int, callsAnswered: bool)

  /** What the dashboard shows. */
  function ViewTrial(terms: Terms, s: Sub, now: int): TrialView {
    if !s.UnpaidTrial() then TrialView(NoTrial, 0, true)
    else
      var ends := s.trialEndsAt.value;
      var state := if s.status == Trialing then Running else if s.status == PastDue then InGrace
                   else if s.status == Suspended then OnHold else Ended;
      var next := match state
        case Running => ends
        case InGrace => ends + terms.graceDays * DAY
        case OnHold => ends + terms.closeDays * DAY
        case _ => now;
      TrialView(state, Max(0, DaysUntil(next, now)), state == Running || state == InGrace)
  }

  datatype Op =
    | Read(now: int, month: Month)
    | ChangePlan(plan: string, coupon: Option<CouponGiven>, now: int, month: Month)
    | Checkout(plan: string, simulated: bool, now: int, month: Month)
    | Extend(days: int, now: int, month: Month)
    | Convert(now: int, month: Month)
    | Sweep(now: int)

  /** A sweep takes subscriptions as stored; everything else reads them first. */
  function Step(terms: Terms, s: Option<Sub>, op: Op): (Option<Sub>, Option<Notice>) {
    match op
    case Read(now, month) => (Some(Current(terms, s, now, month)), None)
    case ChangePlan(plan, coupon, now, month) =>
      (Some(PlanChanged(terms, Current(terms, s, now, month), plan, coupon, now)), None)
    case Checkout(plan, simulated, now, month) =>
      (Some(CheckedOut(PlanChanged(terms, Current(terms, s, now, month), plan, None, now), simulated)), None)
    case Extend(days, now, month) => (Some(Extended(Current(terms, s, now, month), days, now)), None)
    case Convert(now, month) => (Some(Converted(Current(terms, s, now, month))), None)
    case Sweep(now) =>
      (match s
       case None => (None, None)
       case Some(sub) => var (t, notice) := Swept(terms, sub, now); (Some(t), notice))
  }

  function Run(terms: Terms, s: Option<Sub>, ops: seq<Op>): Option<Sub>
    decreases |ops|
  {
    if ops == [] then s else Run(terms, Step(terms, s, ops[0]).0, ops[1..])
  }

  /** The notices sent over a run, in order. */
  function Sent(terms: Terms, s: Option<Sub>, ops: seq<Op>): seq<Notice>
    decreases |ops|
  {
    if ops == [] then []
    else
      var (t, notice) := Step(terms, s, ops[0]);
      (if notice.Some? then [notice.value] else []) + Sent(terms, t, ops[1..])
  }

  /** The clock never runs backwards and every month given is the one around its instant. */
  ghost predicate Timely(ops: seq<Op>, since: int)
    decreases |ops|
  {
    ops == [] ||
    (&& since <= ops[0].now
     && (!ops[0].Sweep? ==> ops[0].month.Around(ops[0].now))
     && Timely(ops[1..], ops[0].now))
  }
}
