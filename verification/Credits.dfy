/** Coupons, account credit and the bill of a period (apps/api/parlio_api/billing.py). */
module Credits {
  import opened Wrappers
  import opened Clock
  import opened Subscriptions

  // -- coupons ---------------------------------------------------------------------------------

  datatype Coupon = Coupon(percentOff: Option<int>, amountOff: Option<int>, months: Option<int>) {
    function Percent(): int {
      if percentOff.Some? then percentOff.value else 0
    }

    function Amount(): int {
      if amountOff.Some? then amountOff.value else 0
    }

    /** What is left to pay of a sum. */
    function Apply(pence: int): (r: int)
      ensures 0 <= r
    {
      var p := if Percent() != 0 then pence - pence * Percent() / 100 else pence;
      Max(0, if Amount() != 0 then p - Amount() else p)
    }
  }

  /** A coupon never raises a price exactly when neither of its parts is negative. */
  lemma DiscountsStayWithinPrice(c: Coupon)
    ensures (forall base: nat :: c.Apply(base) <= base) <==> 0 <= c.Percent() && 0 <= c.Amount()
  {
    if 0 <= c.Percent() && 0 <= c.Amount() {
      forall base: nat
        ensures c.Apply(base) <= base
      {
        ShareIsNotNegative(base, c.Percent());
      }
    } else if c.Percent() < 0 {
      var n: nat := (if c.Amount() < 0 then -c.Amount() else c.Amount()) + 1;
      NegativeShare(n, c.Percent());
      assert c.Apply(100 * n) > 100 * n;
    } else {
      assert c.Apply(0) > 0;
    }
  }

  /** A coupon takes off its percentage, rounded down to whole pence, then its amount, and never goes below nothing. */
  lemma CouponTakesOff(c: Coupon, pence: int, share: int)
    requires c.percentOff.Some? ==> share * 100 <= pence * c.percentOff.value < (share + 1) * 100
    requires c.percentOff.None? ==> share == 0
    ensures var left := pence - share - if c.amountOff.Some? then c.amountOff.value else 0;
      c.Apply(pence) == if left < 0 then 0 else left
  {
  }

  lemma ShareIsNotNegative(base: nat, percent: nat)
    ensures 0 <= base * percent / 100
  {
  }

  lemma NegativeShare(n: int, percent: int)
    requires 0 <= n && percent < 0
    ensures 100 * n * percent / 100 == n * percent <= -n
  {
  }

  /** Period closes at which a subscription still has its coupon. */
  function Discounted(s: Sub, closes: seq<Month>): nat
    decreases |closes|
  {
    if closes == [] then 0 else (if s.coupon.Some? then 1 else 0) + Discounted(Rolled(s, closes[0]), closes[1..])
  }

  /** A coupon for m months discounts the next m closes (one at least), and one without end all of them. */
  lemma {:induction false} CouponRunsItsMonths(s: Sub, closes: seq<Month>)
    requires s.coupon.Some?
    ensures Discounted(s, closes)
            == if s.couponMonthsLeft.None? then |closes| else Min(|closes|, Max(1, s.couponMonthsLeft.value))
    decreases |closes|
  {
    if closes != [] {
      var next := Rolled(s, closes[0]);
      if next.coupon.Some? {
        CouponRunsItsMonths(next, closes[1..]);
      } else {
        NoCouponNoDiscount(next, closes[1..]);
      }
    }
  }

  lemma {:induction false} NoCouponNoDiscount(s: Sub, closes: seq<Month>)
    requires s.coupon.None?
    ensures Discounted(s, closes) == 0
    decreases |closes|
  {
    if closes != [] {
      NoCouponNoDiscount(Rolled(s, closes[0]), closes[1..]);
    }
  }

  // -- credit ----------------------------------------------------------------------------------

  datatype Credit = Credit(pence: nat, remaining: nat)

  function Balance(credits: seq<Credit>): nat {
    if credits == [] then 0 else credits[0].remaining + Balance(credits[1..])
  }

  function Granted(credits: seq<Credit>): nat {
    if credits == [] then 0 else credits[0].pence + Granted(credits[1..])
  }

  /** What the credit at `i` contributes once all earlier ones have been drawn on. */
  function Draw(credits: seq<Credit>, pence: int, i: nat): (take: nat)
    requires i < |credits|
    ensures take <= credits[i].remaining
  {
    Max(0, Min(credits[i].remaining, pence - Balance(credits[..i])))
  }

  /** Drawing `pence` from credits in order of creation, said credit by credit. */
  ghost predicate DrawnInOrder(before: seq<Credit>, after: seq<Credit>, pence: int) {
    && |after| == |before|
    && forall i | 0 <= i < |before| ::
         after[i] == before[i].(remaining := before[i].remaining - Draw(before, pence, i))
  }

  lemma {:induction false} BalanceSnoc(credits: seq<Credit>, c: Credit)
    ensures Balance(credits + [c]) == Balance(credits) + c.remaining
    ensures Granted(credits + [c]) == Granted(credits) + c.pence
  {
    if credits == [] {
      assert credits + [c] == [c] && [c][1..] == [];
    } else {
      BalanceSnoc(credits[1..], c);
      assert (credits + [c])[1..] == credits[1..] + [c];
    }
  }

  lemma BalanceSplit(credits: seq<Credit>, i: nat)
    requires i < |credits|
    ensures Balance(credits[..i + 1]) == Balance(credits[..i]) + credits[i].remaining
  {
    assert credits[..i + 1] == credits[..i] + [credits[i]];
    BalanceSnoc(credits[..i], credits[i]);
  }

  lemma {:induction false} PrefixBalance(credits: seq<Credit>, i: nat)
    requires i <= |credits|
    ensures Balance(credits[..i]) <= Balance(credits)
    decreases |credits| - i
  {
    if i == |credits| {
      assert credits[..i] == credits;
    } else {
      BalanceSplit(credits, i);
      PrefixBalance(credits, i + 1);
    }
  }

  /** The balance falls by exactly what was asked for, or by all there is. */
  lemma {:induction false} DrawnExactly(before: seq<Credit>, after: seq<Credit>, pence: int)
    requires DrawnInOrder(before, after, pence)
    ensures Balance(after) == Balance(before) - Min(Balance(before), Max(0, pence))
    ensures Granted(after) == Granted(before)
    decreases |before|
  {
    if before != [] {
      var n := |before| - 1;
      assert before == before[..n] + [before[n]] && after == after[..n] + [after[n]];
      DrawnFront(before, after, pence);
      DrawnExactly(before[..n], after[..n], pence);
      BalanceSnoc(before[..n], before[n]);
      BalanceSnoc(after[..n], after[n]);
    }
  }

  lemma DrawnFront(before: seq<Credit>, after: seq<Credit>, pence: int)
    requires before != [] && DrawnInOrder(before, after, pence)
    ensures DrawnInOrder(before[..|before| - 1], after[..|before| - 1], pence)
  {
    var n := |before| - 1;
    forall i | 0 <= i < n
      ensures after[..n][i] == before[..n][i].(remaining := before[..n][i].remaining - Draw(before[..n], pence, i))
    {
      assert before[..n][..i] == before[..i];
    }
  }

  /** Among the credits drawn on, one is touched only when every earlier one is used up. */
  lemma EarlierDrawnFirst(before: seq<Credit>, after: seq<Credit>, pence: int, i: nat, j: nat)
    requires DrawnInOrder(before, after, pence) && i < j < |before| && after[j] != before[j]
    ensures after[i].remaining == 0
  {
    BalanceSplit(before, i);
    assert before[..j][..i + 1] == before[..i + 1];
    PrefixBalance(before[..j], i + 1);
  }

  // -- the listing of the store ------------------------------------------------------------------

  /** The most credits one listing shows: the newest ones. */
  const LISTING: nat := 1000

  function Cut(credits: seq<Credit>): (k: nat)
    ensures k <= |credits|
  {
    if |credits| <= LISTING then 0 else |credits| - LISTING
  }

  /** What can be seen of the balance. */
  function Shown(credits: seq<Credit>): nat {
    Balance(credits[Cut(credits)..])
  }

  /** Of more than a thousand credits just the last thousand are seen. */
  lemma NewestAreShown(past: seq<Credit>, recent: seq<Credit>)
    requires |recent| == 1000 || (past == [] && |recent| < 1000)
    ensures Shown(past + recent) == Balance(recent)
  {
    assert (past + recent)[|past|..] == recent;
  }

  /** Drawing `pence` from the credits listed, in order; those beyond stay as they are. */
  ghost predicate DrawnFromListed(before: seq<Credit>, after: seq<Credit>, pence: int) {
    && |after| == |before| && after[..Cut(before)] == before[..Cut(before)]
    && DrawnInOrder(before[Cut(before)..], after[Cut(before)..], pence)
  }

  lemma {:induction false} BalanceJoin(a: seq<Credit>, b: seq<Credit>)
    ensures Balance(a + b) == Balance(a) + Balance(b) && Granted(a + b) == Granted(a) + Granted(b)
  {
    if a == [] {
      assert a + b == b;
    } else {
      assert (a + b)[1..] == a[1..] + b;
      BalanceJoin(a[1..], b);
    }
  }

  /** The whole balance falls by what was asked for, or by all that is shown of it. */
  lemma ListedDrawnExactly(before: seq<Credit>, after: seq<Credit>, pence: int)
    requires DrawnFromListed(before, after, pence)
    ensures Balance(after) == Balance(before) - Min(Shown(before), Max(0, pence)) && Granted(after) == Granted(before)
  {
    var k := Cut(before);
    assert before == before[..k] + before[k..] && after == after[..k] + after[k..];
    BalanceJoin(before[..k], before[k..]);
    BalanceJoin(after[..k], after[k..]);
    DrawnExactly(before[k..], after[k..], pence);
  }

  /** First in, first out: a credit is touched only when every earlier one is used up. */
  ghost predicate FirstInFirstOut(before: seq<Credit>, after: seq<Credit>)
    requires |after| == |before|
  {
    forall i, j | 0 <= i < j < |before| && after[j] != before[j] :: after[i].remaining == 0
  }

  /** Credits are drawn first in, first out exactly when those beyond the listing are used up, or nothing is drawn. */
  lemma EarlierCreditsFirst(before: seq<Credit>, after: seq<Credit>, pence: int)
    requires DrawnFromListed(before, after, pence)
    ensures FirstInFirstOut(before, after)
            <==> Min(Shown(before), pence) <= 0 || forall i | 0 <= i < Cut(before) :: before[i].remaining == 0
  {
    var k := Cut(before);
    if Min(Shown(before), pence) <= 0 {
      NothingDrawn(before[k..], after[k..], pence);
      assert before == before[..k] + before[k..] && after == after[..k] + after[k..];
    } else {
      var j := SomethingDrawn(before, after, pence);
      forall i, m | k <= i < m < |before| && after[m] != before[m]
        ensures after[i].remaining == 0
      {
        EarlierDrawnFirst(before[k..], after[k..], pence, i - k, m - k);
        assert after[k..][i - k] == after[i];
      }
      forall i | 0 <= i < k
        ensures after[i] == before[i]
      {
        assert after[..k][i] == before[..k][i];
      }
    }
  }

  lemma NothingDrawn(before: seq<Credit>, after: seq<Credit>, pence: int)
    requires DrawnInOrder(before, after, pence) && Min(Balance(before), pence) <= 0
    ensures after == before
  {
    forall i | 0 <= i < |before|
      ensures after[i] == before[i]
    {
      if 0 < pence {
        BalanceSplit(before, i);
        PrefixBalance(before, i + 1);
      }
    }
  }

  lemma SomethingDrawn(before: seq<Credit>, after: seq<Credit>, pence: int) returns (j: nat)
    requires DrawnFromListed(before, after, pence) && 0 < Min(Shown(before), pence)
    ensures Cut(before) <= j < |before| && after[j] != before[j]
  {
    var k := Cut(before);
    ListedDrawnExactly(before, after, pence);
    forall i | 0 <= i < k
      ensures after[i] == before[i]
    {
      assert after[..k][i] == before[..k][i];
    }
    assert after != before;
    j :| 0 <= j < |before| && after[j] != before[j];
  }

  // -- the bill of a period --------------------------------------------------------------------

  datatype Bill = Bill(base: nat, discount: int, gross: int, credit: int, total: int)

  /** `extras` is the sum of the overage charges. */
  function BillFor(base: nat, coupon: Option<Coupon>, extras: nat, balance: nat): Bill {
    var discount := if coupon.Some? then base - coupon.value.Apply(base) else 0;
    var gross := base - discount + extras;
    var credit := Min(balance, gross);
    Bill(base, discount, gross, credit, gross - credit)
  }

  lemma BillAddsUp(base: nat, coupon: Option<Coupon>, extras: nat, balance: nat)
    ensures var b := BillFor(base, coupon, extras, balance);
      && 0 <= b.credit <= balance && b.total + b.credit == b.gross && b.total == Max(0, b.gross - balance)
      && (coupon.Some? && 0 <= coupon.value.Percent() && 0 <= coupon.value.Amount() ==> 0 <= b.discount <= base)
  {
  }

  /** The price after the coupon and all the extras make the gross, and credit pays as much of it as there is. */
  lemma BillHoldsEverything(base: nat, coupon: Option<Coupon>, extras: nat, balance: nat)
    ensures var b := BillFor(base, coupon, extras, balance);
      && b.base == base
      && b.gross == extras + (if coupon.Some? then coupon.value.Apply(base) else base)
      && b.base - b.discount + extras == b.gross
      && b.credit <= balance && b.credit <= b.gross && (b.credit == balance || b.total == 0)
  {
  }

  // -- the account over a run ------------------------------------------------------------------

  datatype Change = Grant(pence: nat) | Close(gross: nat, serving: bool)

  datatype Ledger = Ledger(credits: seq<Credit>, invoices: seq<nat>)

  /** The whole new ledger after a change, as a relation: drawing is described credit by credit. */
  ghost predicate Changes(l: Ledger, c: Change, m: Ledger) {
    match c
    case Grant(pence) =>
      if pence == 0 then m == l else m == l.(credits := l.credits + [Credit(pence, pence)])
    case Close(gross, serving) =>
      var credit := Min(Shown(l.credits), gross);
      && DrawnFromListed(l.credits, m.credits, credit)
      && m.invoices == if serving then l.invoices + [gross - credit] else l.invoices
  }

  class Account {
    var credits: seq<Credit>
    var invoices: seq<nat>

    constructor ()
      ensures State() == Ledger([], [])
    {
      credits, invoices := [], [];
    }

    ghost function State(): Ledger
      reads this
    {
      Ledger(credits, invoices)
    }

    /** Goes through the credits listed, oldest first. */
    method ConsumeCredits(pence: int)
      modifies `credits
      ensures DrawnFromListed(old(credits), credits, pence)
    {
      var first := Cut(credits);
      var drawn := DrawFrom(credits[first..], pence);
      credits := credits[..first] + drawn;
    }

    method DrawFrom(listed: seq<Credit>, pence: int) returns (drawn: seq<Credit>)
      ensures DrawnInOrder(listed, drawn, pence)
    {
      var left := pence;
      var i := 0;
      drawn := listed;
      while i < |drawn| && left > 0
        invariant 0 <= i <= |drawn| == |listed|
        invariant left == pence - Balance(listed[..i]) || (left <= 0 && pence <= Balance(listed[..i]))
        invariant forall k | 0 <= k < i :: drawn[k] == listed[k].(remaining := listed[k].remaining - Draw(listed, pence, k))
        invariant forall k | i <= k < |drawn| :: drawn[k] == listed[k]
      {
        BalanceSplit(listed, i);
        var take := Min(drawn[i].remaining, left);
        if take > 0 {
          left := left - take;
          drawn := drawn[i := drawn[i].(remaining := drawn[i].remaining - take)];
        }
        i := i + 1;
      }
      forall k | i <= k < |drawn|
        ensures Draw(listed, pence, k) == 0
      {
        assert listed[..k][..i] == listed[..i];
        PrefixBalance(listed[..k], i);
      }
    }

    method GrantCredit(pence: nat)
      modifies this
      ensures Changes(old(State()), Grant(pence), State())
    {
      if pence > 0 {
        credits := credits + [Credit(pence, pence)];
      }
    }

    /** Closing a period; only a subscription in service is sent an invoice. */
    method ClosePeriod(gross: nat, serving: bool) returns (credit: nat)
      modifies this
      ensures Changes(old(State()), Close(gross, serving), State())
      ensures credit == Min(Shown(old(credits)), gross)
    {
      credit := Min(Shown(credits), gross);
      ConsumeCredits(credit);
      if serving {
        invoices := invoices + [gross - credit];
      }
    }
  }

  function Total(invoices: seq<nat>): nat {
    if invoices == [] then 0 else invoices[0] + Total(invoices[1..])
  }

  lemma {:induction false} TotalSnoc(invoices: seq<nat>, x: nat)
    ensures Total(invoices + [x]) == Total(invoices) + x
  {
    if invoices == [] {
      assert invoices + [x] == [x] && [x][1..] == [];
    } else {
      TotalSnoc(invoices[1..], x);
      assert (invoices + [x])[1..] == invoices[1..] + [x];
    }
  }

  function GrantedBy(changes: seq<Change>): nat {
    if changes == [] then 0 else (if changes[0].Grant? then changes[0].pence else 0) + GrantedBy(changes[1..])
  }

  function ChargedBy(changes: seq<Change>): nat {
    if changes == [] then 0 else (if changes[0].Close? then changes[0].gross else 0) + ChargedBy(changes[1..])
  }

  /** `ledgers` is a history of the account under `changes`. */
  ghost predicate History(ledgers: seq<Ledger>, changes: seq<Change>) {
    && |ledgers| == |changes| + 1
    && forall k | 0 <= k < |changes| :: Changes(ledgers[k], changes[k], ledgers[k + 1])
  }

  /** What a change draws from the balance. */
  function DrawnAt(l: Ledger, c: Change): nat {
    match c
    case Grant(_) => 0
    case Close(gross, _) => Min(Shown(l.credits), gross)
  }

  /** What the first `n` changes drew. */
  function DrawnBy(ledgers: seq<Ledger>, changes: seq<Change>, n: nat): nat
    requires n <= |changes| < |ledgers|
  {
    if n == 0 then 0 else DrawnBy(ledgers, changes, n - 1) + DrawnAt(ledgers[n - 1], changes[n - 1])
  }

  lemma ChangeConserves(l: Ledger, c: Change, m: Ledger)
    requires Changes(l, c, m)
    ensures Balance(m.credits) == Balance(l.credits) + (if c.Grant? then c.pence else 0) - DrawnAt(l, c)
    ensures Total(m.invoices) == Total(l.invoices) + (if c.Close? && c.serving then c.gross - DrawnAt(l, c) else 0)
    ensures |m.invoices| == |l.invoices| + (if c.Close? && c.serving then 1 else 0) && l.invoices <= m.invoices
  {
    match c
    case Grant(pence) => BalanceSnoc(l.credits, Credit(pence, pence));
    case Close(gross, serving) =>
      var credit := Min(Shown(l.credits), gross);
      ListedDrawnExactly(l.credits, m.credits, credit);
      TotalSnoc(l.invoices, gross - credit);
  }

  /** What a close invoices and takes off the balance is its gross just when it is served or covered. */
  lemma CloseAccountsForGross(l: Ledger, gross: nat, serving: bool, m: Ledger)
    requires Changes(l, Close(gross, serving), m)
    ensures (Total(m.invoices) - Total(l.invoices)) + (Balance(l.credits) - Balance(m.credits)) == gross
            <==> serving || gross <= Shown(l.credits)
  {
    ChangeConserves(l, Close(gross, serving), m);
  }

  /** One change in terms of what is granted, drawn, invoiced and charged. */
  lemma ChangeAccounts(l: Ledger, c: Change, m: Ledger)
    requires Changes(l, c, m)
    ensures Balance(m.credits) == Balance(l.credits) + (if c.Grant? then c.pence else 0) - DrawnAt(l, c)
    ensures var charged := if c.Close? then c.gross else 0;
      && Total(m.invoices) + DrawnAt(l, c) <= Total(l.invoices) + charged
      && (Total(m.invoices) + DrawnAt(l, c) == Total(l.invoices) + charged <==> PaidFor(l, c))
  {
    ChangeConserves(l, c, m);
  }

  /** A close that is served, or that the balance shown covers. */
  ghost predicate PaidFor(l: Ledger, c: Change) {
    c.Close? ==> c.serving || c.gross <= Shown(l.credits)
  }

  ghost predicate AllPaidFor(ledgers: seq<Ledger>, changes: seq<Change>, n: nat)
    requires n <= |changes| < |ledgers|
  {
    forall k | 0 <= k < n :: PaidFor(ledgers[k], changes[k])
  }

  lemma AllPaidForNext(ledgers: seq<Ledger>, changes: seq<Change>, n: nat)
    requires 0 < n <= |changes| < |ledgers|
    ensures AllPaidFor(ledgers, changes, n)
            <==> AllPaidFor(ledgers, changes, n - 1) && PaidFor(ledgers[n - 1], changes[n - 1])
  {
  }

  /**
   At every point of a history from an empty account, credit granted is credit drawn plus credit left;
   invoices and credit drawn never exceed the charges, and make them up exactly when every close was
   served, or covered by the balance shown.
   */
  lemma {:induction false} AccountsBalance(ledgers: seq<Ledger>, changes: seq<Change>, n: nat)
    requires History(ledgers, changes) && ledgers[0] == Ledger([], []) && n <= |changes|
    ensures GrantedBy(changes[..n]) == DrawnBy(ledgers, changes, n) + Balance(ledgers[n].credits)
    ensures Total(ledgers[n].invoices) + DrawnBy(ledgers, changes, n) <= ChargedBy(changes[..n])
    ensures Total(ledgers[n].invoices) + DrawnBy(ledgers, changes, n) == ChargedBy(changes[..n])
            <==> AllPaidFor(ledgers, changes, n)
  {
    if n > 0 {
      AccountsBalance(ledgers, changes, n - 1);
      assert changes[..n] == changes[..n - 1] + [changes[n - 1]];
      SumsSnoc(changes[..n - 1], changes[n - 1]);
      assert Changes(ledgers[n - 1], changes[n - 1], ledgers[n - 1 + 1]);
      ChangeAccounts(ledgers[n - 1], changes[n - 1], ledgers[n]);
      AllPaidForNext(ledgers, changes, n);
    }
  }

  lemma {:induction false} SumsSnoc(changes: seq<Change>, c: Change)
    ensures GrantedBy(changes + [c]) == GrantedBy(changes) + (if c.Grant? then c.pence else 0)
    ensures ChargedBy(changes + [c]) == ChargedBy(changes) + (if c.Close? then c.gross else 0)
  {
    if changes == [] {
      assert changes + [c] == [c] && [c][1..] == [];
    } else {
      SumsSnoc(changes[1..], c);
      assert (changes + [c])[1..] == changes[1..] + [c];
    }
  }
}
