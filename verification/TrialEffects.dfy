/** What happens to a subscription, told without the functions that make it happen (apps/api/parlio_api/billing.py). */
module TrialEffects {
  import opened Wrappers
  import opened Clock
  import opened Subscriptions

  /** A new tenant is on trial for the starter plan's days, or active at once if there are none; its calls are answered. */
  lemma OpenedAsPromised(terms: Terms, now: int, month: Month)
    ensures var days := if "starter" in terms.trialDays then terms.trialDays["starter"] else terms.defaultTrialDays;
      var made := Step(terms, None, Read(now, month)).0;
      && made.Some?
      && (var s := made.value;
          && s.plan == "starter" && !s.paidFor && s.notices == {} && s.reason == None && s.coupon == None
          && s.createdAt == now && s.periodStart == month.start && s.Serves()
          && (days > 0 ==> s.status == Trialing && s.trialEndsAt == Some(now + days * DAY))
          && (days <= 0 ==> s.status == Active && s.trialEndsAt == None)
          && s.UnpaidTrial() == (days > 0)
          && month.end <= s.periodEnd && now + days * DAY <= s.periodEnd
          && (s.periodEnd == month.end || s.periodEnd == now + days * DAY))
  {
  }

  /**
   Reading a period that is over moves it to the month around now: a trial without a card lapses into
   grace, a coupon has a month less and goes with its last, and nothing else changes.
   */
  lemma ReadAsPromised(terms: Terms, s: Sub, now: int, month: Month)
    requires month.Around(now)
    ensures var read := Step(terms, Some(s), Read(now, month)).0;
      && read.Some? && now < read.value.periodEnd
      && (var t := read.value;
          && (now < s.periodEnd ==> t == s)
          && (s.periodEnd <= now ==>
                && t.periodStart == month.start && t.periodEnd == month.end
                && (s.status == Trialing && !s.paidFor ==> t.status == PastDue && t.reason == Some(Grace))
                && (s.status != Trialing || s.paidFor ==> t.status == s.status && t.reason == s.reason)
                && (match s.couponMonthsLeft
                    case None => t.coupon == s.coupon && t.couponMonthsLeft == None
                    case Some(n) =>
                      if n <= 1 then t.coupon == None && t.couponMonthsLeft == None
                      else t.coupon == s.coupon && (s.coupon.Some? ==> t.couponMonthsLeft == Some(n - 1)))
                && t.plan == s.plan && t.paidFor == s.paidFor && t.trialEndsAt == s.trialEndsAt
                && t.notices == s.notices && t.createdAt == s.createdAt))
  {
  }

  /** A period is closed once: read again before the month is over, nothing more happens. */
  lemma ClosedOnce(terms: Terms, s: Sub, now: int, later: int, month: Month, next: Month)
    requires month.Around(now) && s.periodEnd <= now && later < month.end
    ensures var read := Step(terms, Some(s), Read(now, month)).0;
      Step(terms, read, Read(later, next)).0 == read
  {
  }

  /**
   A change of plan during a trial gives the new plan's days from the day of opening, and ends the trial if
   they are over; at any other time only the plan changes.  A coupon given replaces the old one.
   */
  lemma PlanChangedAsAsked(terms: Terms, s: Sub, plan: string, coupon: Option<CouponGiven>, now: int, month: Month)
    requires now < s.periodEnd
    ensures var days := if plan in terms.trialDays then terms.trialDays[plan] else terms.defaultTrialDays;
      var t := Step(terms, Some(s), ChangePlan(plan, coupon, now, month)).0;
      && t.Some? && t.value.plan == plan
      && t.value.paidFor == s.paidFor && t.value.createdAt == s.createdAt && t.value.periodStart == s.periodStart
      && t.value.reason == s.reason && t.value.notices == s.notices
      && (coupon.Some? ==> t.value.coupon == Some(coupon.value.code) && t.value.couponMonthsLeft == coupon.value.months)
      && (coupon.None? ==> t.value.coupon == s.coupon && t.value.couponMonthsLeft == s.couponMonthsLeft)
      && (var end := s.createdAt + days * DAY;
          if s.status != Trialing || s.plan == plan then
            t.value.status == s.status && t.value.trialEndsAt == s.trialEndsAt && t.value.periodEnd == s.periodEnd
          else if days > 0 && now < end then
            && t.value.status == Trialing && t.value.trialEndsAt == Some(end)
            && s.periodEnd <= t.value.periodEnd && end <= t.value.periodEnd
            && (t.value.periodEnd == s.periodEnd || t.value.periodEnd == end)
          else t.value.status == Active && t.value.trialEndsAt == None && t.value.periodEnd == s.periodEnd)
  {
  }

  /**
   Whatever state it was in, a tenant that pays with the simulated provider is active on the plan it chose,
   its calls are answered, and the trial's lifecycle is over.
   */
  lemma PayingActivates(terms: Terms, s: Option<Sub>, plan: string, now: int, month: Month)
    ensures var t := Step(terms, s, Checkout(plan, true, now, month)).0;
      && t.Some? && t.value.status == Active && t.value.paidFor && t.value.plan == plan
      && t.value.Serves() && !t.value.UnpaidTrial()
      && (t.value.reason.Some? ==> t.value.reason.value.Other?)
  {
  }

  /** With any other provider checking out changes the plan and waits for the payment. */
  lemma OthersReportBack(terms: Terms, s: Option<Sub>, plan: string, now: int, month: Month)
    ensures Step(terms, s, Checkout(plan, false, now, month)) == Step(terms, s, ChangePlan(plan, None, now, month))
  {
  }

  /** A tenant that staff convert is active without a trial, card or no card. */
  lemma ConvertingActivates(terms: Terms, s: Option<Sub>, now: int, month: Month)
    ensures var read, t := Step(terms, s, Read(now, month)).0, Step(terms, s, Convert(now, month)).0;
      && read.Some? && t.Some? && t.value.status == Active && t.value.trialEndsAt == None && t.value.reason == None
      && t.value.Serves() && !t.value.UnpaidTrial()
      && t.value.plan == read.value.plan && t.value.paidFor == read.value.paidFor
      && t.value.periodStart == read.value.periodStart && t.value.periodEnd == read.value.periodEnd
      && t.value.coupon == read.value.coupon && t.value.couponMonthsLeft == read.value.couponMonthsLeft
      && t.value.notices == read.value.notices && t.value.createdAt == read.value.createdAt
  {
  }

  /**
   An extension counts from the trial's end, or from now if that is past.  A trial without a card runs
   again, however far it had lapsed, with every notice still to come; anyone else keeps its status.
   */
  lemma ExtendedAsPromised(terms: Terms, s: Sub, days: int, now: int, month: Month)
    requires now < s.periodEnd
    ensures var from := if s.trialEndsAt.Some? then s.trialEndsAt.value else s.periodEnd;
      var end := (if now < from then from else now) + days * DAY;
      var e := Step(terms, Some(s), Extend(days, now, month)).0;
      && e.Some?
      && (var t := e.value;
          && t.trialEndsAt == Some(end) && s.periodEnd <= t.periodEnd && end <= t.periodEnd
          && (t.periodEnd == s.periodEnd || t.periodEnd == end)
          && t.plan == s.plan && t.paidFor == s.paidFor && t.coupon == s.coupon && t.createdAt == s.createdAt
          && (s.status == Trialing || s.UnpaidTrial() ==>
                t.status == Trialing && t.reason == None && t.notices == {} && t.Serves())
          && (s.status != Trialing && !s.UnpaidTrial() ==>
                t.status == s.status && t.reason == s.reason && t.notices == s.notices))
  {
  }

  // -- the sweep -----------------------------------------------------------------------------------

  /** Only what a trial without a card goes through is changed. */
  ghost predicate SameButStage(s: Sub, t: Sub) {
    t == s.(status := t.status, reason := t.reason, notices := t.notices)
  }

  /** The days at which a reminder is due before the end. */
  ghost function DaysBefore(n: Notice): int {
    match n
    case Reminder7 => 7
    case Reminder3 => 3
    case _ => 1
  }

  /** While a trial runs, a sweep sends the last reminder whose day has come, unless it was sent, and nothing else. */
  lemma RemindedExactly(terms: Terms, s: Sub, now: int, n: Notice)
    requires s.UnpaidTrial() && s.status == Trialing && now < s.trialEndsAt.value
    ensures var (t, sent) := Swept(terms, s, now);
      && (sent == Some(n) <==>
            && n in REMINDERS && n !in s.notices && s.trialEndsAt.value - DaysBefore(n) * DAY <= now
            && forall m | m in REMINDERS && DaysBefore(m) < DaysBefore(n) ::
                 m in s.notices || now < s.trialEndsAt.value - DaysBefore(m) * DAY)
      && SameButStage(s, t) && t.status == Trialing && t.reason == s.reason
      && (sent.None? ==> t == s)
      && (sent.Some? ==> forall m :: m in t.notices <==>
            m in s.notices || (m in REMINDERS && s.trialEndsAt.value - DaysBefore(m) * DAY <= now))
  {
    DueExactly(s.trialEndsAt.value, now);
  }

  lemma DueExactly(end: int, now: int)
    ensures forall m :: m in RemindersDue(DaysUntil(end, now)) <==> m in REMINDERS && end - DaysBefore(m) * DAY <= now
  {
  }

  /** A stage of the trial ends at its instant: the tenant is told once, and from then on is in the next one. */
  lemma StagesExactly(terms: Terms, s: Sub, now: int)
    requires s.UnpaidTrial() && !(s.status == Trialing && now < s.trialEndsAt.value)
    ensures var (t, sent) := Swept(terms, s, now); var end := s.trialEndsAt.value;
      && SameButStage(s, t) && (sent.None? ==> t == s)
      && (sent == Some(Expired) <==> s.status == Trialing && Expired !in s.notices)
      && (sent == Some(Expired) ==>
            && t.status == PastDue && t.reason == Some(Grace) && t.Serves()
            && t.notices == s.notices + {Reminder7, Reminder3, Reminder1, Expired})
      && (sent == Some(PausedNotice) <==>
            s.status == PastDue && end + terms.graceDays * DAY <= now && PausedNotice !in s.notices)
      && (sent == Some(PausedNotice) ==>
            && t.status == Suspended && t.reason == Some(CallsPaused) && !t.Serves()
            && t.notices == s.notices + {PausedNotice})
      && (sent == Some(Closed) <==>
            s.status == Suspended && end + terms.closeDays * DAY <= now && Closed !in s.notices)
      && (sent == Some(Closed) ==>
            && t.status == Cancelled && t.reason == Some(AccountClosed) && !t.Serves()
            && t.notices == s.notices + {Closed})
      && (sent.Some? ==> sent.value in {Expired, PausedNotice, Closed})
  {
  }

  /** A tenant that pays, or never had a trial, is left alone. */
  lemma OthersUnswept(terms: Terms, s: Sub, now: int)
    requires s.paidFor || s.trialEndsAt.None?
    ensures Swept(terms, s, now) == (s, None)
  {
  }

  /** The dashboard counts the days that are left of the present stage, a begun one as a whole. */
  lemma DaysShownExactly(terms: Terms, s: Sub, now: int)
    requires s.UnpaidTrial()
    ensures var v, end := ViewTrial(terms, s, now), s.trialEndsAt.value;
      && (v.state == Running <==> s.status == Trialing) && (v.state == InGrace <==> s.status == PastDue)
      && (v.state == OnHold <==> s.status == Suspended) && v.state != NoTrial
      && (v.state == Running ==> CountsDays(v.daysLeft, end - now))
      && (v.state == InGrace ==> CountsDays(v.daysLeft, end + terms.graceDays * DAY - now))
      && (v.state == OnHold ==> CountsDays(v.daysLeft, end + terms.closeDays * DAY - now))
      && (v.state == Ended ==> v.daysLeft == 0)
  {
  }

  ghost predicate CountsDays(n: int, left: int) {
    if left <= 0 then n == 0 else (n - 1) * DAY < left <= n * DAY
  }
}
