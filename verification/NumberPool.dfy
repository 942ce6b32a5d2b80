/** Where every telephone number the platform holds is, and where its calls go (apps/api/parlio_api/billing.py). */
module NumberPool {
  import opened Wrappers
  import opened Ordered

  datatype NumberStatus = Active | Pending | Failed

  datatype PoolNumber = PoolNumber(e164: string, status: NumberStatus)

  datatype TenantNumber = TenantNumber(tenant: string, e164: string, status: NumberStatus)

  /** Stock and tenants' numbers by record id, the routing table, and what the carrier bills us for. */
  datatype Numbers = Numbers(pool: map<string, PoolNumber>, owned: map<string, TenantNumber>,
                             routes: map<string, string>, carrier: set<string>)
  {
    predicate PoolAt(p: string, e164: string) {
      p in pool && pool[p].e164 == e164
    }

    predicate OwnedAt(n: string, e164: string) {
      n in owned && owned[n].e164 == e164
    }

    /** Ready to be handed out. */
    predicate Stocked(p: string, e164: string) {
      PoolAt(p, e164) && pool[p].status == Active
    }
  }

  /** The carrier bills us for exactly the numbers on record. */
  ghost predicate Accounted(w: Numbers) {
    && (forall p, e | w.PoolAt(p, e) :: e in w.carrier)
    && (forall n, e | w.OwnedAt(n, e) :: e in w.carrier)
    && (forall e | e in w.carrier :: (exists p :: w.PoolAt(p, e)) || (exists n :: w.OwnedAt(n, e)))
  }

  /** No number is on record twice. */
  ghost predicate InOnePlace(w: Numbers) {
    && (forall p, q, e | w.PoolAt(p, e) && w.PoolAt(q, e) :: p == q)
    && (forall m, n, e | w.OwnedAt(m, e) && w.OwnedAt(n, e) :: m == n)
    && (forall p, n, e :: !(w.PoolAt(p, e) && w.OwnedAt(n, e)))
  }

  /** Calls are routed for exactly the tenants' numbers, each to its own tenant. */
  ghost predicate RoutedToOwners(w: Numbers) {
    && (forall n, e | w.OwnedAt(n, e) :: e in w.routes && w.routes[e] == w.owned[n].tenant)
    && (forall e | e in w.routes :: exists n :: w.OwnedAt(n, e))
  }

  /**
   Every number the carrier bills us for is in exactly one record, in stock or with one tenant, and
   calls are routed for exactly the tenants' numbers.
   */
  ghost predicate Conserved(w: Numbers) {
    Accounted(w) && InOnePlace(w) && RoutedToOwners(w)
  }

  // -- steps -----------------------------------------------------------------------------------

  function Bought(w: Numbers, p: string, num: PoolNumber): Numbers {
    w.(pool := w.pool[p := num], carrier := w.carrier + {num.e164})
  }

  /** From stock when `p` names a record there, otherwise bought from the carrier. */
  function Provisioned(w: Numbers, n: string, num: TenantNumber, p: Option<string>): Numbers {
    var w := if p.Some? then w.(pool := w.pool - {p.value}) else w.(carrier := w.carrier + {num.e164});
    w.(owned := w.owned[n := num], routes := w.routes[num.e164 := num.tenant])
  }

  /** Off the tenant and into stock; the carrier notices nothing. */
  function Returned(w: Numbers, n: string, p: string): Numbers
    requires n in w.owned
  {
    var num := w.owned[n];
    w.(owned := w.owned - {n}, routes := w.routes - {num.e164}, pool := w.pool[p := PoolNumber(num.e164, num.status)])
  }

  function Released(w: Numbers, n: string): Numbers
    requires n in w.owned
  {
    var num := w.owned[n];
    w.(owned := w.owned - {n}, routes := w.routes - {num.e164}, carrier := w.carrier - {num.e164})
  }

  function PoolReleased(w: Numbers, p: string): Numbers
    requires p in w.pool
  {
    w.(pool := w.pool - {p}, carrier := w.carrier - {w.pool[p].e164})
  }

  /** A number is bought and then cannot be routed to our trunk: the exception leaves it without a record. */
  function Stranded(w: Numbers, e164: string): Numbers {
    w.(carrier := w.carrier + {e164})
  }

  /** The carrier's review of a pending number comes to an end. */
  function Reviewed(w: Numbers, id: string, status: NumberStatus): Numbers {
    var w := if id in w.pool then w.(pool := w.pool[id := w.pool[id].(status := status)]) else w;
    if id in w.owned then w.(owned := w.owned[id := w.owned[id].(status := status)]) else w
  }

  /** Buying keeps the books straight exactly when the carrier has not sold us the number before. */
  lemma BuyingConserves(w: Numbers, p: string, num: PoolNumber)
    requires Conserved(w) && p !in w.pool
    ensures Conserved(Bought(w, p, num)) <==> num.e164 !in w.carrier
  {
    var v, e := Bought(w, p, num), num.e164;
    assert forall q, f :: v.PoolAt(q, f) <==> if q == p then f == e else w.PoolAt(q, f);
    assert forall n, f :: v.OwnedAt(n, f) <==> w.OwnedAt(n, f);
    assert v.PoolAt(p, e);
    if e in w.carrier {
      AlreadyOnRecord(w, v, e);
    } else {
      StillAccounted(w, v, e);
    }
  }

  /** A number on record in `w` is on record twice once `v` adds a record for it. */
  lemma AlreadyOnRecord(w: Numbers, v: Numbers, e: string)
    requires Accounted(w) && e in w.carrier
    requires (forall q, f | w.PoolAt(q, f) :: v.PoolAt(q, f)) && (forall n, f | w.OwnedAt(n, f) :: v.OwnedAt(n, f))
    requires (exists p :: p !in w.pool && v.PoolAt(p, e)) || (exists n :: n !in w.owned && v.OwnedAt(n, e))
    ensures !InOnePlace(v)
  {
  }

  /** Changing records for `e` alone, one of which remains, leaves everything accounted for. */
  lemma StillAccounted(w: Numbers, v: Numbers, e: string)
    requires Accounted(w) && v.carrier == w.carrier + {e}
    requires (exists p :: v.PoolAt(p, e)) || (exists n :: v.OwnedAt(n, e))
    requires forall q, f | f != e :: v.PoolAt(q, f) <==> w.PoolAt(q, f)
    requires forall n, f | f != e :: v.OwnedAt(n, f) <==> w.OwnedAt(n, f)
    ensures Accounted(v)
  {
  }

  lemma RoutesFollow(w: Numbers, v: Numbers, n: string, num: TenantNumber)
    requires RoutedToOwners(w) && n !in w.owned && v.owned == w.owned[n := num]
    requires v.routes == w.routes[num.e164 := num.tenant]
    requires forall m | m in w.owned :: w.owned[m].e164 != num.e164
    ensures RoutedToOwners(v)
  {
    assert v.OwnedAt(n, num.e164);
    forall e | e in v.routes
      ensures exists m :: v.OwnedAt(m, e)
    {
      if e != num.e164 {
        var m :| w.OwnedAt(m, e);
        assert v.OwnedAt(m, e);
      }
    }
  }

  lemma ProvisioningFromStockConserves(w: Numbers, n: string, num: TenantNumber, p: string)
    requires Conserved(w) && n !in w.owned && w.Stocked(p, num.e164)
    ensures Conserved(Provisioned(w, n, num, Some(p)))
  {
    var v, e := Provisioned(w, n, num, Some(p)), num.e164;
    assert w.PoolAt(p, e);
    assert forall q, f :: v.PoolAt(q, f) <==> q != p && w.PoolAt(q, f);
    assert forall m, f :: v.OwnedAt(m, f) <==> if m == n then f == e else w.OwnedAt(m, f);
    assert v.OwnedAt(n, e);
    assert RoutedToOwners(v) by {
      assert forall m | m in w.owned :: w.OwnedAt(m, w.owned[m].e164);
      RoutesFollow(w, v, n, num);
    }
    assert Accounted(v) by {
      StillAccounted(w, v, e);
    }
    MovedInOnePlace(w, v, n, p, e);
  }

  lemma MovedInOnePlace(w: Numbers, v: Numbers, n: string, p: string, e: string)
    requires InOnePlace(w) && w.PoolAt(p, e)
    requires forall q, f :: v.PoolAt(q, f) <==> q != p && w.PoolAt(q, f)
    requires forall m, f :: v.OwnedAt(m, f) <==> if m == n then f == e else w.OwnedAt(m, f)
    ensures InOnePlace(v)
  {
  }

  /** Buying straight for a tenant has the same exact proviso. */
  lemma ProvisioningFromCarrierConserves(w: Numbers, n: string, num: TenantNumber)
    requires Conserved(w) && n !in w.owned
    ensures Conserved(Provisioned(w, n, num, None)) <==> num.e164 !in w.carrier
  {
    var v, e := Provisioned(w, n, num, None), num.e164;
    assert v.OwnedAt(n, e);
    if e in w.carrier {
      assert forall q, f | w.PoolAt(q, f) :: v.PoolAt(q, f);
      assert forall m, f | w.OwnedAt(m, f) :: v.OwnedAt(m, f);
      AlreadyOnRecord(w, v, e);
    } else {
      NewNumberConserves(w, n, num);
    }
  }

  lemma NewNumberConserves(w: Numbers, n: string, num: TenantNumber)
    requires Conserved(w) && n !in w.owned && num.e164 !in w.carrier
    ensures Conserved(Provisioned(w, n, num, None))
  {
    var v, e := Provisioned(w, n, num, None), num.e164;
    assert forall q, f :: v.PoolAt(q, f) <==> w.PoolAt(q, f);
    assert forall m, f :: v.OwnedAt(m, f) <==> if m == n then f == e else w.OwnedAt(m, f);
    assert v.OwnedAt(n, e);
    assert Accounted(v) by {
      StillAccounted(w, v, e);
    }
    assert RoutedToOwners(v) by {
      assert forall m | m in w.owned :: w.OwnedAt(m, w.owned[m].e164);
      RoutesFollow(w, v, n, num);
    }
    NewNumberInOnePlace(w, v, n, e);
  }

  lemma NewNumberInOnePlace(w: Numbers, v: Numbers, n: string, e: string)
    requires Accounted(w) && InOnePlace(w) && e !in w.carrier
    requires forall q, f :: v.PoolAt(q, f) <==> w.PoolAt(q, f)
    requires forall m, f :: v.OwnedAt(m, f) <==> if m == n then f == e else w.OwnedAt(m, f)
    ensures InOnePlace(v)
  {
  }

  /** Taking a number off a tenant takes its route away and no other. */
  lemma RoutesShrink(w: Numbers, v: Numbers, n: string)
    requires RoutedToOwners(w) && InOnePlace(w) && n in w.owned
    requires v.owned == w.owned - {n} && v.routes == w.routes - {w.owned[n].e164}
    ensures RoutedToOwners(v)
    ensures forall m, f :: v.OwnedAt(m, f) <==> m != n && w.OwnedAt(m, f)
    ensures w.OwnedAt(n, w.owned[n].e164)
  {
    var gone := w.owned[n].e164;
    assert w.OwnedAt(n, gone);
    assert forall m, f :: v.OwnedAt(m, f) <==> m != n && w.OwnedAt(m, f);
    forall m, f | v.OwnedAt(m, f)
      ensures f in v.routes && v.routes[f] == v.owned[m].tenant
    {
      assert w.OwnedAt(m, f) && f != gone;
    }
    forall e | e in v.routes
      ensures exists m :: v.OwnedAt(m, e)
    {
      var m :| w.OwnedAt(m, e);
      assert v.OwnedAt(m, e);
    }
  }

  lemma ReturningConserves(w: Numbers, n: string, p: string)
    requires Conserved(w) && n in w.owned && p !in w.pool
    ensures Conserved(Returned(w, n, p)) && Returned(w, n, p).carrier == w.carrier
  {
    var v, e := Returned(w, n, p), w.owned[n].e164;
    RoutesShrink(w, v, n);
    assert forall q, f :: v.PoolAt(q, f) <==> if q == p then f == e else w.PoolAt(q, f);
    assert v.PoolAt(p, e);
    StillAccounted(w, v, e);
  }

  /** Giving a number up leaves the others accounted for. */
  lemma GivenUp(w: Numbers, v: Numbers, e: string)
    requires Accounted(w) && v.carrier == w.carrier - {e}
    requires forall q, f :: v.PoolAt(q, f) <==> f != e && w.PoolAt(q, f)
    requires forall n, f :: v.OwnedAt(n, f) <==> f != e && w.OwnedAt(n, f)
    ensures Accounted(v)
  {
  }

  lemma ReleasingConserves(w: Numbers, n: string)
    requires Conserved(w) && n in w.owned
    ensures Conserved(Released(w, n))
  {
    var v, e := Released(w, n), w.owned[n].e164;
    RoutesShrink(w, v, n);
    assert forall q, f :: v.PoolAt(q, f) <==> w.PoolAt(q, f);
    GivenUp(w, v, e);
  }

  lemma PoolReleasingConserves(w: Numbers, p: string)
    requires Conserved(w) && p in w.pool
    ensures Conserved(PoolReleased(w, p))
  {
    var v, e := PoolReleased(w, p), w.pool[p].e164;
    assert w.PoolAt(p, e);
    assert forall q, f :: v.PoolAt(q, f) <==> q != p && w.PoolAt(q, f);
    assert forall n, f :: v.OwnedAt(n, f) <==> w.OwnedAt(n, f);
    GivenUp(w, v, e);
    SameRoutes(w, v);
  }

  lemma SameRoutes(w: Numbers, v: Numbers)
    requires RoutedToOwners(w) && v.routes == w.routes
    requires forall n, f :: v.OwnedAt(n, f) <==> w.OwnedAt(n, f)
    requires forall n | n in w.owned && n in v.owned :: v.owned[n].tenant == w.owned[n].tenant
    ensures RoutedToOwners(v)
  {
  }

  lemma ReviewConserves(w: Numbers, id: string, status: NumberStatus)
    requires Conserved(w)
    ensures Conserved(Reviewed(w, id, status))
  {
    var v := Reviewed(w, id, status);
    ReviewChangesStatus(w, id, status);
    SameRoutes(w, v);
    SameRecords(w, v);
  }

  lemma ReviewChangesStatus(w: Numbers, id: string, status: NumberStatus)
    ensures var v := Reviewed(w, id, status);
      && v.carrier == w.carrier && v.routes == w.routes
      && (forall q, f :: v.PoolAt(q, f) <==> w.PoolAt(q, f))
      && (forall n, f :: v.OwnedAt(n, f) <==> w.OwnedAt(n, f))
      && (forall n | n in w.owned && n in v.owned :: v.owned[n].tenant == w.owned[n].tenant)
  {
  }

  lemma SameRecords(w: Numbers, v: Numbers)
    requires Accounted(w) && InOnePlace(w) && v.carrier == w.carrier
    requires forall q, f :: v.PoolAt(q, f) <==> w.PoolAt(q, f)
    requires forall n, f :: v.OwnedAt(n, f) <==> w.OwnedAt(n, f)
    ensures Accounted(v) && InOnePlace(v)
  {
  }

  // -- what a step is for --------------------------------------------------------------------------

  /** A number bought is in stock, and ready if it needs no review. */
  lemma BoughtIsStocked(w: Numbers, p: string, num: PoolNumber)
    ensures var v := Bought(w, p, num);
      && v.PoolAt(p, num.e164) && v.pool[p].status == num.status && (v.Stocked(p, num.e164) <==> num.status == Active)
      && num.e164 in v.carrier && v.owned == w.owned && v.routes == w.routes
  {
  }

  /** A number provided belongs to its tenant and its calls go there. */
  lemma ProvidedServes(w: Numbers, n: string, num: TenantNumber, p: Option<string>)
    ensures var v := Provisioned(w, n, num, p);
      && n in v.owned && v.owned[n] == num && num.e164 in v.routes && v.routes[num.e164] == num.tenant
      && (forall m | m != n :: m in v.owned <==> m in w.owned)
      && (forall m | m != n && m in w.owned :: v.owned[m] == w.owned[m])
      && (p.Some? ==> p.value !in v.pool && v.carrier == w.carrier)
      && (p.None? ==> v.pool == w.pool && num.e164 in v.carrier)
  {
  }

  /** A number returned is in stock as it was with the tenant: ready for the next one if it was in service. */
  lemma ReturnedIsStocked(w: Numbers, n: string, p: string)
    requires n in w.owned
    ensures var v, num := Returned(w, n, p), w.owned[n];
      && n !in v.owned && num.e164 !in v.routes
      && v.PoolAt(p, num.e164) && v.pool[p].status == num.status
      && (v.Stocked(p, num.e164) <==> num.status == Active)
  {
  }

  /** Handing a number out and taking it back leaves everything as it was. */
  lemma ReturnUndoesHandOut(w: Numbers, n: string, tenant: string, e164: string, p: string)
    requires w.Stocked(p, e164) && n !in w.owned && e164 !in w.routes
    ensures Returned(Provisioned(w, n, TenantNumber(tenant, e164, Active), Some(p)), n, p) == w
  {
  }

  /** So does buying a number and giving it up again. */
  lemma ReleaseUndoesBuying(w: Numbers, n: string, num: TenantNumber)
    requires n !in w.owned && num.e164 !in w.routes && num.e164 !in w.carrier
    ensures Released(Provisioned(w, n, num, None), n) == w
  {
  }

  lemma PoolReleaseUndoesBuying(w: Numbers, p: string, num: PoolNumber)
    requires p !in w.pool && num.e164 !in w.carrier
    ensures PoolReleased(Bought(w, p, num), p) == w
  {
  }

  /** A verdict settles the record it is about, and no other. */
  lemma ReviewedExactly(w: Numbers, id: string, status: NumberStatus)
    ensures var v := Reviewed(w, id, status);
      && v.pool.Keys == w.pool.Keys && v.owned.Keys == w.owned.Keys && v.routes == w.routes && v.carrier == w.carrier
      && (forall p | p in w.pool :: v.pool[p] == if p == id then PoolNumber(w.pool[p].e164, status) else w.pool[p])
      && (forall n | n in w.owned ::
            v.owned[n] == if n == id then TenantNumber(w.owned[n].tenant, w.owned[n].e164, status) else w.owned[n])
  {
  }

  /** The carrier bills us for a number that is on no record. */
  ghost predicate Stray(w: Numbers, e: string) {
    e in w.carrier && (forall p :: !w.PoolAt(p, e)) && forall n :: !w.OwnedAt(n, e)
  }

  /** So a purchase that strands a number breaks the rule. */
  lemma StrandingBreaks(w: Numbers, e: string)
    requires Conserved(w) && e !in w.carrier
    ensures Stray(Stranded(w, e), e) && !Conserved(Stranded(w, e))
  {
    var v := Stranded(w, e);
    forall p
      ensures !v.PoolAt(p, e)
    {
      assert w.PoolAt(p, e) ==> e in w.carrier;
    }
    forall n
      ensures !v.OwnedAt(n, e)
    {
      assert w.OwnedAt(n, e) ==> e in w.carrier;
    }
  }

  datatype Op =
    | Strand(stray: string)
    | Buy(p: string, num: PoolNumber)
    | Provision(n: string, given: TenantNumber, stock: Option<string>)
    | Return(n: string, p: string)
    | Release(n: string)
    | PoolRelease(p: string)
    | Review(id: string, status: NumberStatus)

  /** Record ids are new, stock is taken only when ready, and the carrier sells no number twice. */
  ghost predicate Legal(w: Numbers, op: Op) {
    match op
    case Strand(e) => e !in w.carrier
    case Buy(p, num) => p !in w.pool && num.e164 !in w.carrier
    case Provision(n, given, stock) =>
      n !in w.owned && (if stock.Some? then w.Stocked(stock.value, given.e164) else given.e164 !in w.carrier)
    case Return(n, p) => n in w.owned && p !in w.pool
    case Release(n) => n in w.owned
    case PoolRelease(p) => p in w.pool
    case Review(_, _) => true
  }

  ghost function Step(w: Numbers, op: Op): Numbers
    requires Legal(w, op)
  {
    match op
    case Strand(e) => Stranded(w, e)
    case Buy(p, num) => Bought(w, p, num)
    case Provision(n, given, stock) => Provisioned(w, n, given, stock)
    case Return(n, p) => Returned(w, n, p)
    case Release(n) => Released(w, n)
    case PoolRelease(p) => PoolReleased(w, p)
    case Review(id, status) => Reviewed(w, id, status)
  }

  ghost predicate Reaches(w: Numbers, ops: seq<Op>, v: Numbers)
    decreases |ops|
  {
    if ops == [] then v == w else Legal(w, ops[0]) && Reaches(Step(w, ops[0]), ops[1..], v)
  }

  lemma StepConserves(w: Numbers, op: Op)
    requires Conserved(w) && Legal(w, op)
    ensures Conserved(Step(w, op)) <==> !op.Strand?
  {
    match op
    case Strand(e) => StrandingBreaks(w, e);
    case Buy(p, num) => BuyingConserves(w, p, num);
    case Provision(n, given, stock) =>
      if stock.Some? {
        ProvisioningFromStockConserves(w, n, given, stock.value);
      } else {
        ProvisioningFromCarrierConserves(w, n, given);
      }
    case Return(n, p) => ReturningConserves(w, n, p);
    case Release(n) => ReleasingConserves(w, n);
    case PoolRelease(p) => PoolReleasingConserves(w, p);
    case Review(id, status) => ReviewConserves(w, id, status);
  }

  /** No step finds a stray number again: each speaks of a number on record, or of one not yet bought. */
  lemma StrayStays(w: Numbers, op: Op, e: string)
    requires Stray(w, e) && Legal(w, op)
    ensures Stray(Step(w, op), e)
  {
    match op
    case Strand(_) => NoRecordAdded(w, Step(w, op), e);
    case Buy(_, num) => assert num.e164 != e; NoRecordAdded(w, Step(w, op), e);
    case Provision(_, given, stock) =>
      assert stock.Some? ==> w.PoolAt(stock.value, given.e164);
      NoRecordAdded(w, Step(w, op), e);
    case Return(n, _) => assert w.OwnedAt(n, w.owned[n].e164); NoRecordAdded(w, Step(w, op), e);
    case Release(n) => assert w.OwnedAt(n, w.owned[n].e164); NoRecordAdded(w, Step(w, op), e);
    case PoolRelease(p) => assert w.PoolAt(p, w.pool[p].e164); NoRecordAdded(w, Step(w, op), e);
    case Review(_, _) => NoRecordAdded(w, Step(w, op), e);
  }

  lemma NoRecordAdded(w: Numbers, v: Numbers, e: string)
    requires Stray(w, e) && e in v.carrier
    requires forall p | p in v.pool && v.pool[p].e164 == e :: w.PoolAt(p, e)
    requires forall n | n in v.owned && v.owned[n].e164 == e :: w.OwnedAt(n, e)
    ensures Stray(v, e)
  {
  }

  lemma {:induction false} RunKeepsStray(w: Numbers, ops: seq<Op>, v: Numbers, e: string)
    requires Stray(w, e) && Reaches(w, ops, v)
    ensures Stray(v, e)
    decreases |ops|
  {
    if ops != [] {
      StrayStays(w, ops[0], e);
      RunKeepsStray(Step(w, ops[0]), ops[1..], v, e);
    }
  }

  /** A run of purchases, assignments, returns, releases and reviews loses or doubles a number exactly when one is stranded. */
  lemma {:induction false} RunConserves(w: Numbers, ops: seq<Op>, v: Numbers)
    requires Conserved(w) && Reaches(w, ops, v)
    ensures Conserved(v) <==> forall op | op in ops :: !op.Strand?
    decreases |ops|
  {
    if ops != [] {
      var next := Step(w, ops[0]);
      assert ops[0] in ops && forall op | op in ops :: op == ops[0] || op in ops[1..];
      StepConserves(w, ops[0]);
      if ops[0].Strand? {
        StrandingBreaks(w, ops[0].stray);
        RunKeepsStray(next, ops[1..], v, ops[0].stray);
      } else {
        RunConserves(next, ops[1..], v);
      }
    }
  }

  // -- what the store shows ------------------------------------------------------------------------

  /** The most records one listing shows: the newest ones. */
  const LISTING: nat := 1000

  function Newest(s: seq<string>): seq<string> {
    if |s| <= LISTING then s else s[|s| - LISTING..]
  }

  /** `s` lists the keys, each once, in order of age. */
  ghost predicate Lists(s: seq<string>, keys: set<string>) {
    (forall x :: x in s <==> x in keys) && forall i, j | 0 <= i < j < |s| :: s[i] != s[j]
  }

  function Without(s: seq<string>, x: string): seq<string> {
    if s == [] then [] else (if s[0] == x then [] else [s[0]]) + Without(s[1..], x)
  }

  lemma {:induction false} WithoutMembers(s: seq<string>, x: string)
    ensures forall y :: y in Without(s, x) <==> y in s && y != x
  {
    if s != [] {
      WithoutMembers(s[1..], x);
      assert forall y :: y in s <==> y == s[0] || y in s[1..];
    }
  }

  lemma {:induction false} WithoutDistinct(s: seq<string>, x: string)
    requires forall i, j | 0 <= i < j < |s| :: s[i] != s[j]
    ensures forall i, j | 0 <= i < j < |Without(s, x)| :: Without(s, x)[i] != Without(s, x)[j]
  {
    if s != [] {
      WithoutDistinct(s[1..], x);
      WithoutMembers(s[1..], x);
      var rest := Without(s[1..], x);
      assert forall j | 0 <= j < |rest| :: rest[j] in rest;
    }
  }

  lemma ListsDrop(s: seq<string>, keys: set<string>, x: string)
    requires Lists(s, keys)
    ensures Lists(Without(s, x), keys - {x})
  {
    WithoutMembers(s, x);
    WithoutDistinct(s, x);
  }

  lemma ListsAdd(s: seq<string>, keys: set<string>, x: string)
    requires Lists(s, keys) && x !in keys
    ensures Lists(s + [x], keys + {x})
  {
    assert forall i | 0 <= i < |s| :: s[i] in s;
  }

  /** A tenant's records, in order of age. */
  function Mine(book: seq<string>, owned: map<string, TenantNumber>, tenant: string): seq<string> {
    if book == [] then []
    else (if book[0] in owned && owned[book[0]].tenant == tenant then [book[0]] else []) + Mine(book[1..], owned, tenant)
  }

  lemma {:induction false} MineMembers(book: seq<string>, owned: map<string, TenantNumber>, tenant: string)
    ensures forall n :: n in Mine(book, owned, tenant) <==> n in book && n in owned && owned[n].tenant == tenant
  {
    if book != [] {
      MineMembers(book[1..], owned, tenant);
      assert forall n :: n in book <==> n == book[0] || n in book[1..];
    }
  }

  lemma {:induction false} MineDistinct(book: seq<string>, owned: map<string, TenantNumber>, tenant: string)
    requires forall i, j | 0 <= i < j < |book| :: book[i] != book[j]
    ensures forall i, j | 0 <= i < j < |Mine(book, owned, tenant)| ::
              Mine(book, owned, tenant)[i] != Mine(book, owned, tenant)[j]
  {
    if book != [] {
      MineDistinct(book[1..], owned, tenant);
      MineMembers(book[1..], owned, tenant);
      var rest := Mine(book[1..], owned, tenant);
      assert forall j | 0 <= j < |rest| :: rest[j] in rest;
    }
  }

  // -- the service -----------------------------------------------------------------------------

  /** The stock after the first `bought` offers, whatever was there before untouched. */
  ghost predicate Stocking(was: map<string, PoolNumber>, pool: map<string, PoolNumber>, offers: seq<PoolNumber>,
                           ids: seq<string>, bought: nat)
    requires bought <= |offers| == |ids|
  {
    && (forall p :: p in pool <==> p in was || p in ids[..bought])
    && (forall p | p in was :: pool[p] == was[p])
    && (forall i | 0 <= i < bought :: pool[ids[i]] == offers[i])
  }

  lemma StockingOn(was: map<string, PoolNumber>, pool: map<string, PoolNumber>, offers: seq<PoolNumber>,
                   ids: seq<string>, bought: nat)
    requires bought < |offers| == |ids| && Stocking(was, pool, offers, ids, bought) && ids[bought] !in was
    requires forall i, j | 0 <= i < j < |ids| :: ids[i] != ids[j]
    ensures Stocking(was, pool[ids[bought] := offers[bought]], offers, ids, bought + 1)
  {
    assert ids[..bought + 1] == ids[..bought] + [ids[bought]];
  }

  class NumberService {
    var pool: map<string, PoolNumber>
    var owned: map<string, TenantNumber>
    var routes: map<string, string>
    /** Records of the stock and of tenants, in the order in which they were made. */
    var shelf: seq<string>
    var book: seq<string>
    ghost var carrier: set<string>

    constructor ()
      ensures Conserved(State()) && Filed()
    {
      pool, owned, routes, shelf, book, carrier := map[], map[], map[], [], [], {};
    }

    ghost function State(): Numbers
      reads this
    {
      Numbers(pool, owned, routes, carrier)
    }

    ghost predicate Filed()
      reads this
    {
      Lists(shelf, pool.Keys) && Lists(book, owned.Keys)
    }

    /** What a listing of a tenant's numbers shows. */
    function Listing(tenant: string): seq<string>
      reads this
    {
      Newest(Mine(book, owned, tenant))
    }

    method StorePool(p: string, num: PoolNumber)
      requires p !in pool && Filed()
      modifies `pool, `shelf
      ensures Filed() && pool == old(pool)[p := num] && shelf == old(shelf) + [p]
    {
      ListsAdd(shelf, pool.Keys, p);
      pool, shelf := pool[p := num], shelf + [p];
      assert pool.Keys == old(pool).Keys + {p};
    }

    method DropPool(p: string)
      requires Filed()
      modifies `pool, `shelf
      ensures Filed() && pool == old(pool) - {p} && shelf == Without(old(shelf), p)
    {
      ListsDrop(shelf, pool.Keys, p);
      pool, shelf := pool - {p}, Without(shelf, p);
      assert pool.Keys == old(pool).Keys - {p};
    }

    method StoreOwned(n: string, num: TenantNumber)
      requires n !in owned && Filed()
      modifies `owned, `book
      ensures Filed() && owned == old(owned)[n := num] && book == old(book) + [n]
    {
      ListsAdd(book, owned.Keys, n);
      owned, book := owned[n := num], book + [n];
      assert owned.Keys == old(owned).Keys + {n};
    }

    method DropOwned(n: string)
      requires Filed()
      modifies `owned, `book
      ensures Filed() && owned == old(owned) - {n} && book == Without(old(book), n)
    {
      ListsDrop(book, owned.Keys, n);
      owned, book := owned - {n}, Without(book, n);
      assert owned.Keys == old(owned).Keys - {n};
    }

    /**
     Stops at the first purchase the carrier refuses, or the first number bought that cannot be routed;
     what was bought by then stays bought, in the latter case without a record.
     */
    method BuyPoolNumbers(offers: seq<PoolNumber>, ids: seq<string>, refusedAt: nat, unroutedAt: nat)
      returns (bought: nat, stranded: bool)
      requires |ids| == |offers|
      requires forall i | 0 <= i < |ids| :: ids[i] !in pool
      requires forall i, j | 0 <= i < j < |ids| :: ids[i] != ids[j]
      requires forall i | 0 <= i < |offers| && i < refusedAt :: offers[i].e164 !in carrier
      requires forall i, j | 0 <= i < j < |offers| && j < refusedAt :: offers[i].e164 != offers[j].e164
      requires Conserved(State()) && Filed()
      modifies `pool, `shelf, `carrier
      ensures Filed() && bought == Least(|offers|, Least(refusedAt, unroutedAt))
      ensures stranded <==> unroutedAt < |offers| && unroutedAt < refusedAt
      ensures Conserved(State()) <==> !stranded
      ensures Stocking(old(pool), pool, offers, ids, bought)
      ensures carrier == old(carrier) + (set i | 0 <= i < bought :: offers[i].e164)
                         + (if stranded then {offers[bought].e164} else {})
    {
      bought, stranded := 0, false;
      while bought < |offers| && bought < refusedAt && bought != unroutedAt
        invariant bought <= |offers| && bought <= refusedAt && bought <= unroutedAt
        invariant Stocking(old(pool), pool, offers, ids, bought)
        invariant Conserved(State()) && Filed()
        invariant carrier == old(carrier) + (set i | 0 <= i < bought :: offers[i].e164)
        invariant forall i | bought <= i < |ids| :: ids[i] !in pool
      {
        StockingOn(old(pool), pool, offers, ids, bought);
        BuyNumber(ids[bought], offers[bought]);
        bought := bought + 1;
      }
      if bought < |offers| && bought < refusedAt {
        StrandingBreaks(State(), offers[bought].e164);
        stranded := true;
        carrier := carrier + {offers[bought].e164};
      }
    }

    method BuyNumber(p: string, num: PoolNumber)
      requires p !in pool && num.e164 !in carrier && Conserved(State()) && Filed()
      modifies `pool, `shelf, `carrier
      ensures pool == old(pool)[p := num] && carrier == old(carrier) + {num.e164} && Conserved(State()) && Filed()
    {
      BuyingConserves(State(), p, num);
      StorePool(p, num);
      carrier := carrier + {num.e164};
    }

    /** The newest record in stock, of those shown, that is ready to be handed out and carries a number. */
    method FindStocked(e164: string) returns (p: Option<string>)
      requires Filed()
      ensures p.Some? ==> p.value in Newest(shelf) && State().Stocked(p.value, e164)
      ensures p.None? ==> forall q | q in Newest(shelf) :: !State().Stocked(q, e164)
    {
      var shown := Newest(shelf);
      var k := |shown|;
      while k > 0
        invariant 0 <= k <= |shown|
        invariant forall m | k <= m < |shown| :: !State().Stocked(shown[m], e164)
      {
        k := k - 1;
        assert shown[k] in shelf;
        if pool[shown[k]].e164 == e164 && pool[shown[k]].status == Active {
          return Some(shown[k]);
        }
      }
      return None;
    }

    /**
     Gives a tenant a number, from stock if it is shown there.  `admitted` stands for the plan's limits
     and a known assistant, `sold` for the carrier's answer when it is asked, and `routed` for whether a
     number it sold can be routed to our trunk.
     */
    method ProvisionNumber(n: string, tenant: string, e164: string, admitted: bool, sold: Option<NumberStatus>, routed: bool)
      returns (ok: bool, stranded: bool)
      requires n !in owned && Conserved(State()) && Filed()
      requires sold.Some? ==> e164 !in carrier || InStock(e164)
      modifies this
      ensures Filed()
      ensures ok <==> old(Asks(tenant, e164, admitted)) && (old(InStock(e164)) || (sold.Some? && routed))
      ensures stranded <==> old(Asks(tenant, e164, admitted)) && !old(InStock(e164)) && sold.Some? && !routed
      ensures ok && old(InStock(e164)) ==> exists p | p in old(Newest(shelf)) && old(State()).Stocked(p, e164) ::
        State() == Provisioned(old(State()), n, TenantNumber(tenant, e164, Active), Some(p))
      ensures ok && !old(InStock(e164)) ==>
        State() == Provisioned(old(State()), n, TenantNumber(tenant, e164, sold.value), None)
      ensures !ok ==> State() == if stranded then Stranded(old(State()), e164) else old(State())
      ensures Conserved(State()) <==> !stranded
    {
      ok, stranded := false, false;
      if exists m | m in Listing(tenant) :: m in owned && owned[m].e164 == e164 {
        return;
      }
      if !admitted {
        return;
      }
      var p := FindStocked(e164);
      if p.Some? {
        HandOut(n, TenantNumber(tenant, e164, Active), p.value);
        return true, false;
      }
      if sold.None? {
        return;
      }
      if !routed {
        StrandingBreaks(State(), e164);
        carrier := carrier + {e164};
        return false, true;
      }
      BuyFor(n, TenantNumber(tenant, e164, sold.value));
      return true, false;
    }

    /** The plan allows the number, and the tenant's listing does not show it yet. */
    ghost predicate Asks(tenant: string, e164: string, admitted: bool)
      reads this
    {
      admitted && forall m | m in Listing(tenant) :: !State().OwnedAt(m, e164)
    }

    /** The stock shown holds the number, ready to be handed out. */
    ghost predicate InStock(e164: string)
      reads this
    {
      exists p | p in Newest(shelf) :: State().Stocked(p, e164)
    }

    method HandOut(n: string, num: TenantNumber, p: string)
      requires n !in owned && Conserved(State()) && Filed() && State().Stocked(p, num.e164)
      modifies this
      ensures Filed() && Conserved(State()) && State() == Provisioned(old(State()), n, num, Some(p))
    {
      ghost var next := Provisioned(State(), n, num, Some(p));
      ProvisioningFromStockConserves(State(), n, num, p);
      DropPool(p);
      StoreOwned(n, num);
      routes := routes[num.e164 := num.tenant];
      assert State() == next;
    }

    method BuyFor(n: string, num: TenantNumber)
      requires n !in owned && Conserved(State()) && Filed() && num.e164 !in carrier
      modifies this
      ensures Filed() && Conserved(State()) && State() == Provisioned(old(State()), n, num, None)
    {
      ProvisioningFromCarrierConserves(State(), n, num);
      carrier := carrier + {num.e164};
      StoreOwned(n, num);
      routes := routes[num.e164 := num.tenant];
    }

    method ReturnNumberToPool(tenant: string, n: string, p: string) returns (ok: bool)
      requires p !in pool && Conserved(State()) && Filed()
      modifies this
      ensures ok <==> n in old(owned) && old(owned)[n].tenant == tenant
      ensures State() == if ok then Returned(old(State()), n, p) else old(State())
      ensures Conserved(State()) && carrier == old(carrier) && Filed()
    {
      if n !in owned || owned[n].tenant != tenant {
        return false;
      }
      ReturningConserves(State(), n, p);
      var num := owned[n];
      routes := routes - {num.e164};
      DropOwned(n);
      StorePool(p, PoolNumber(num.e164, num.status));
      return true;
    }

    method ReleaseNumber(tenant: string, n: string) returns (ok: bool)
      requires Conserved(State()) && Filed()
      modifies this
      ensures ok <==> n in old(owned) && old(owned)[n].tenant == tenant
      ensures State() == if ok then Released(old(State()), n) else old(State())
      ensures Conserved(State()) && Filed()
    {
      if n !in owned || owned[n].tenant != tenant {
        return false;
      }
      ReleasingConserves(State(), n);
      var num := owned[n];
      carrier := carrier - {num.e164};
      routes := routes - {num.e164};
      DropOwned(n);
      return true;
    }

    method ReleasePoolNumber(p: string) returns (ok: bool)
      requires Conserved(State()) && Filed()
      modifies this
      ensures ok <==> p in old(pool)
      ensures State() == if ok then PoolReleased(old(State()), p) else old(State())
      ensures Conserved(State()) && Filed()
    {
      if p !in pool {
        return false;
      }
      PoolReleasingConserves(State(), p);
      carrier := carrier - {pool[p].e164};
      DropPool(p);
      return true;
    }

    /**
     Closing an account puts the numbers its listing shows back into stock.  None is lost; none stays
     routed to the tenant exactly when one listing shows them all.
     */
    method CloseAccount(tenant: string, ids: seq<string>)
      requires Conserved(State()) && Filed()
      requires |ids| == |Listing(tenant)| && forall i | 0 <= i < |ids| :: ids[i] !in pool
      requires forall i, j | 0 <= i < j < |ids| :: ids[i] != ids[j]
      modifies this
      ensures Conserved(State()) && carrier == old(carrier) && Filed()
      ensures owned == old(owned) - (set n | n in old(Listing(tenant)))
      ensures forall i | 0 <= i < |ids| ::
        && old(Listing(tenant))[i] in old(owned)
        && State().PoolAt(ids[i], old(owned)[old(Listing(tenant))[i]].e164)
      ensures (forall e | e in routes :: routes[e] != tenant) <==> |old(Mine(book, owned, tenant))| <= LISTING
    {
      var mine, listed := Mine(book, owned, tenant), Listing(tenant);
      MineMembers(book, owned, tenant);
      MineDistinct(book, owned, tenant);
      ReturnAll(tenant, listed, ids);
      WhoIsLeft(State(), old(owned), tenant, mine, listed);
    }

    method ReturnAll(tenant: string, listed: seq<string>, ids: seq<string>)
      requires Conserved(State()) && Filed()
      requires forall n | n in listed :: n in owned && owned[n].tenant == tenant
      requires forall i, j | 0 <= i < j < |listed| :: listed[i] != listed[j]
      requires |ids| == |listed| && forall i | 0 <= i < |ids| :: ids[i] !in pool
      requires forall i, j | 0 <= i < j < |ids| :: ids[i] != ids[j]
      modifies this
      ensures Conserved(State()) && carrier == old(carrier) && Filed()
      ensures owned == old(owned) - (set n | n in listed)
      ensures forall i | 0 <= i < |ids| :: State().PoolAt(ids[i], old(owned)[listed[i]].e164)
    {
      for i := 0 to |listed|
        invariant Conserved(State()) && carrier == old(carrier) && Filed()
        invariant owned == Kept(old(owned), listed[..i])
        invariant forall k | i <= k < |ids| :: ids[k] !in pool
        invariant forall k | 0 <= k < i :: State().PoolAt(ids[k], old(owned)[listed[k]].e164)
      {
        KeptNext(old(owned), listed, i);
        var _ := ReturnNumberToPool(tenant, listed[i], ids[i]);
      }
      assert listed[..|listed|] == listed;
    }
  }

  function Least(a: nat, b: nat): nat {
    if a < b then a else b
  }

  ghost function Kept(owned: map<string, TenantNumber>, gone: seq<string>): map<string, TenantNumber> {
    owned - (set n | n in gone)
  }

  /** One number at a time leaves. */
  lemma KeptNext(owned: map<string, TenantNumber>, listed: seq<string>, i: nat)
    requires i < |listed| && (forall n | n in listed :: n in owned)
    requires forall k, m | 0 <= k < m < |listed| :: listed[k] != listed[m]
    ensures Kept(owned, listed[..i + 1]) == Kept(owned, listed[..i]) - {listed[i]}
    ensures listed[i] in Kept(owned, listed[..i]) && Kept(owned, listed[..i])[listed[i]] == owned[listed[i]]
  {
    assert listed[..i + 1] == listed[..i] + [listed[i]] && listed[i] in listed;
  }

  /** What the newest of a tenant's numbers leave behind when they go. */
  lemma WhoIsLeft(w: Numbers, was: map<string, TenantNumber>, tenant: string, mine: seq<string>, listed: seq<string>)
    requires RoutedToOwners(w) && listed == Newest(mine) && w.owned == was - (set n | n in listed)
    requires forall n :: n in mine <==> n in was && was[n].tenant == tenant
    requires forall i, j | 0 <= i < j < |mine| :: mine[i] != mine[j]
    ensures (forall e | e in w.routes :: w.routes[e] != tenant) <==> |mine| <= LISTING
  {
    if |mine| <= LISTING {
      NoRouteWithoutNumber(w, tenant);
    } else {
      var n := mine[0];
      assert n in mine && n !in listed;
      assert w.OwnedAt(n, w.owned[n].e164);
    }
  }

  lemma NoRouteWithoutNumber(w: Numbers, tenant: string)
    requires RoutedToOwners(w) && forall n | n in w.owned :: w.owned[n].tenant != tenant
    ensures forall e | e in w.routes :: w.routes[e] != tenant
  {
  }
}
