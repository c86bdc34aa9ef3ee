/**
 What one reservation draws on: every configured quota scope of its identity and every budget that
 covers it, each exactly once.
 */
module Draws {
  import opened Text
  import opened Calendar
  import opened Scope
  import opened Tables
  import opened Transactions
  import opened History
  import opened Conservation
  import opened Lifecycle
  import opened Store

  function QuotaTargets(t: Tables, scopes: seq<Str>): seq<Target>
    decreases |scopes|
  {
    if scopes == [] then []
    else QuotaTarget(t, scopes[0]) + QuotaTargets(t, scopes[1..])
  }

  /** The account of each covering policy for the period that contains `now`. */
  function BudgetTargets(t: Tables, dir: Directory, req: Request, tenant: int, group: int, now: int,
                         i: nat): seq<Target>
    requires i <= |t.policies|
    decreases |t.policies| - i
  {
    if i == |t.policies| then []
    else
      var bounds := PeriodBounds(dir.zones, now, t.policies[i].period, t.policies[i].timezone);
      (if Covers(t.policies[i], tenant, group, req) && bounds.Some?
       then [OnAccount(AccountKey(i, bounds.value.0))] else [])
      + BudgetTargets(t, dir, req, tenant, group, now, i + 1)
  }

  function Holds(req: Request, targets: seq<Target>): seq<Item> {
    seq(|targets|, i requires 0 <= i < |targets| => HeldItem(req, targets[i]))
  }

  lemma HoldsConcat(req: Request, a: seq<Target>, b: seq<Target>)
    ensures Holds(req, a + b) == Holds(req, a) + Holds(req, b)
  {
  }

  lemma {:induction false} QuotaTargetsFrame(t: Tables, u: Tables, scopes: seq<Str>)
    requires u.quotas.Keys == t.quotas.Keys
    ensures QuotaTargets(u, scopes) == QuotaTargets(t, scopes)
    decreases |scopes|
  {
    if scopes != [] {
      QuotaTargetsFrame(t, u, scopes[1..]);
      assert scopes[0] in t.quotas.Keys <==> scopes[0] in u.quotas.Keys;
    }
  }

  function QuotaTarget(t: Tables, scope: Str): seq<Target> {
    if scope in t.quotas then [OnQuota(scope)] else []
  }

  lemma DebitScopeItems(t: Tables, req: Request, scope: Str)
    requires DebitScope(t, req, scope).Commit?
    ensures var u := DebitScope(t, req, scope).tables;
            u.items == t.items + Holds(req, QuotaTarget(t, scope)) && u.policies == t.policies
            && u.quotas.Keys == t.quotas.Keys
  {
    hide Lower;
  }

  lemma {:induction false} DebitScopesItems(t: Tables, req: Request, scopes: seq<Str>)
    requires DebitScopes(t, req, scopes).Commit?
    ensures var u := DebitScopes(t, req, scopes).tables;
            u.items == t.items + Holds(req, QuotaTargets(t, scopes)) && u.policies == t.policies
    decreases |scopes|
  {
    hide DebitScope, QuotaTarget;
    if scopes != [] {
      var w, rest := DebitScope(t, req, scopes[0]).tables, QuotaTargets(t, scopes[1..]);
      DebitScopeItems(t, req, scopes[0]);
      DebitScopesItems(w, req, scopes[1..]);
      QuotaTargetsFrame(t, w, scopes[1..]);
      HoldsConcat(req, QuotaTarget(t, scopes[0]), rest);
      hide Holds;
      assert (t.items + Holds(req, QuotaTarget(t, scopes[0]))) + Holds(req, rest)
          == t.items + (Holds(req, QuotaTarget(t, scopes[0])) + Holds(req, rest));
    }
  }

  lemma {:induction false} BudgetTargetsFrame(t: Tables, u: Tables, dir: Directory, req: Request, tenant: int,
                                              group: int, now: int, i: nat)
    requires u.policies == t.policies && i <= |t.policies|
    ensures BudgetTargets(u, dir, req, tenant, group, now, i) == BudgetTargets(t, dir, req, tenant, group, now, i)
    decreases |t.policies| - i
  {
    hide PeriodBounds, Covers;
    if i < |t.policies| {
      BudgetTargetsFrame(t, u, dir, req, tenant, group, now, i + 1);
    }
  }

  lemma {:induction false} DebitBudgetsItems(t: Tables, dir: Directory, req: Request, tenant: int, group: int, now: int,
                                             i: nat)
    requires i <= |t.policies| && DebitBudgets(t, dir, req, tenant, group, now, i).Commit?
    ensures DebitBudgets(t, dir, req, tenant, group, now, i).tables.items
            == t.items + Holds(req, BudgetTargets(t, dir, req, tenant, group, now, i))
    decreases |t.policies| - i
  {
    hide PeriodBounds, Covers, Admits;
    if i < |t.policies| {
      var p, rest := t.policies[i], BudgetTargets(t, dir, req, tenant, group, now, i + 1);
      if Covers(p, tenant, group, req) {
        var w := DebitBudget(t, dir, req, i, now).tables;
        DebitBudgetsItems(w, dir, req, tenant, group, now, i + 1);
        BudgetTargetsFrame(t, w, dir, req, tenant, group, now, i + 1);
        HoldsConcat(req, [OnAccount(AccountKey(i, PeriodBounds(dir.zones, now, p.period, p.timezone).value.0))], rest);
      } else {
        DebitBudgetsItems(t, dir, req, tenant, group, now, i + 1);
        assert [] + rest == rest;
      }
    }
  }

  function TargetsOf(t: Tables, dir: Directory, req: Request, tenant: int, now: int): seq<Target> {
    QuotaTargets(t, ScopesOf(req))
    + var g := GroupId(dir, tenant, req); BudgetTargets(t, dir, req, tenant, if g.Some? then g.value else 0, now, 0)
  }

  /** A new reservation holds its estimate on every configured scope and every covering budget, and on
      nothing else. */
  lemma ReserveDrawsOnAll(t: Tables, dir: Directory, request: Request, now: int)
    requires ReserveTx(t, dir, request, now).Commit? && Normalized(request).id !in t.reservations
    ensures var req := Normalized(request);
            && req.tenant in dir.tenants
            && ReserveTx(t, dir, request, now).tables.items
               == t.items + Holds(req, TargetsOf(t, dir, req, dir.tenants[req.tenant], now))
  {
    hide DebitScopes, DebitBudgets, Normalized, ValidRequest, LegacyGroup, ScopesOf, GroupId, BudgetTargets,
         QuotaTargets, Holds;
    var req := Normalized(request);
    var tenant := dir.tenants[req.tenant];
    var g := GroupId(dir, tenant, req).value;
    var w := WithRow(t, req.id, NewRow(req, tenant, now));
    var v := DebitScopes(w, req, ScopesOf(req)).tables;
    DebitScopesItems(w, req, ScopesOf(req));
    QuotaTargetsFrame(t, w, ScopesOf(req));
    DebitBudgetsItems(v, dir, req, tenant, g, now, 0);
    BudgetTargetsFrame(t, v, dir, req, tenant, g, now, 0);
    HoldsConcat(req, QuotaTargets(t, ScopesOf(req)), BudgetTargets(t, dir, req, tenant, g, now, 0));
  }

  // ---------------------------------------------------------------------------------------
  // The uniqueness constraints hold by construction
  // ---------------------------------------------------------------------------------------

  ghost predicate Distinct(targets: seq<Target>) {
    forall i, j :: 0 <= i < j < |targets| ==> targets[i] != targets[j]
  }

  lemma {:induction false} QuotaTargetsDistinct(t: Tables, scopes: seq<Str>)
    requires forall i, j :: 0 <= i < j < |scopes| ==> scopes[i] != scopes[j]
    ensures Distinct(QuotaTargets(t, scopes))
    ensures forall g :: g in QuotaTargets(t, scopes) ==> g.OnQuota? && g.scope in scopes
    decreases |scopes|
  {
    if scopes != [] {
      QuotaTargetsDistinct(t, scopes[1..]);
    }
  }

  lemma {:induction false} BudgetTargetsDistinct(t: Tables, dir: Directory, req: Request, tenant: int, group: int,
                                                 now: int, i: nat)
    requires i <= |t.policies|
    ensures Distinct(BudgetTargets(t, dir, req, tenant, group, now, i))
    ensures forall g :: g in BudgetTargets(t, dir, req, tenant, group, now, i) ==> g.OnAccount? && g.account.policy >= i
    decreases |t.policies| - i
  {
    hide PeriodBounds, Covers;
    if i < |t.policies| {
      BudgetTargetsDistinct(t, dir, req, tenant, group, now, i + 1);
    }
  }

  lemma TargetsDistinct(t: Tables, dir: Directory, req: Request, tenant: int, now: int)
    ensures Distinct(TargetsOf(t, dir, req, tenant, now))
  {
    hide QuotaTargets, BudgetTargets, ScopesOf, GroupId, Less;
    var scopes, g := ScopesOf(req), GroupId(dir, tenant, req);
    ScopesAreSorted(req);
    forall i, j | 0 <= i < j < |scopes| ensures scopes[i] != scopes[j] {
      LessTotal(scopes[i], scopes[j]);
    }
    QuotaTargetsDistinct(t, scopes);
    var group := if g.Some? then g.value else 0;
    BudgetTargetsDistinct(t, dir, req, tenant, group, now, 0);
    DistinctConcat(QuotaTargets(t, scopes), BudgetTargets(t, dir, req, tenant, group, now, 0));
  }

  lemma DistinctConcat(a: seq<Target>, b: seq<Target>)
    requires Distinct(a) && Distinct(b)
    requires (forall g :: g in a ==> g.OnQuota?) && (forall g :: g in b ==> g.OnAccount?)
    ensures Distinct(a + b)
  {
    forall i, j | 0 <= i < j < |a + b| ensures (a + b)[i] != (a + b)[j] {
      if i < |a| <= j {
        assert a[i] in a && b[j - |a|] in b;
      }
    }
  }

  /** No reservation has two items on the same quota or account. */
  ghost predicate UniqueDraws(items: seq<Item>) {
    forall i, j :: 0 <= i < j < |items| && items[i].reservation == items[j].reservation ==>
        items[i].target != items[j].target
  }

  lemma HoldsKeepUnique(items: seq<Item>, req: Request, targets: seq<Target>)
    requires UniqueDraws(items) && Distinct(targets)
    requires forall i :: 0 <= i < |items| ==> items[i].reservation != req.id
    ensures UniqueDraws(items + Holds(req, targets))
  {
    var all, n := items + Holds(req, targets), |items|;
    forall i, j | 0 <= i < j < |all| && all[i].reservation == all[j].reservation
      ensures all[i].target != all[j].target
    {
      if j >= n && i >= n {
        assert all[i].target == targets[i - n] && all[j].target == targets[j - n];
      }
    }
  }

  lemma NextUniqueDraws(t: Tables, step: Step)
    requires Linked(t) && UniqueDraws(t.items)
    ensures UniqueDraws(Next(t, step).items)
  {
    hide Next, Holds, TargetsOf, UniqueDraws, ReserveTx, Normalized, Extends;
    if step.ReserveStep? {
      NextReserveUnique(t, step);
    } else {
      NextAddsNoItem(t, step);
      OriginsKept(t, step);
    }
  }

  lemma OriginsKept(t: Tables, step: Step)
    requires UniqueDraws(t.items) && |Next(t, step).items| == |t.items|
    ensures UniqueDraws(Next(t, step).items)
  {
    hide Next;
    NextExtends(t, step);
    forall i | 0 <= i < |t.items|
      ensures Next(t, step).items[i].reservation == t.items[i].reservation
              && Next(t, step).items[i].target == t.items[i].target
    {
      assert SameOrigin(t.items[i], Next(t, step).items[i]);
    }
  }

  lemma NextReserveUnique(t: Tables, step: Step)
    requires Linked(t) && UniqueDraws(t.items) && step.ReserveStep?
    ensures UniqueDraws(Next(t, step).items)
  {
    hide ReserveTx, Normalized, Holds, TargetsOf, UniqueDraws;
    var req := Normalized(step.req);
    if req.id in t.reservations {
      RepeatedReserve(t, step.dir, step.req, step.now);
    } else if ReserveTx(t, step.dir, step.req, step.now).Commit? {
      ReserveDrawsOnAll(t, step.dir, step.req, step.now);
      TargetsDistinct(t, step.dir, req, step.dir.tenants[req.tenant], step.now);
      forall i | 0 <= i < |t.items| ensures t.items[i].reservation != req.id {
        assert ItemLinked(t, t.items[i]);
      }
      HoldsKeepUnique(t.items, req, TargetsOf(t, step.dir, req, step.dir.tenants[req.tenant], step.now));
    }
  }

  /** The unique constraints on items are never violated in any run. */
  lemma {:induction false} RunUniqueDraws(steps: seq<Step>)
    ensures UniqueDraws(Run(EMPTY, steps).items)
  {
    hide Next, UniqueDraws, Linked;
    if steps == [] {
      NoItemsUnique();
    } else {
      var before := steps[..|steps| - 1];
      RunUniqueDraws(before);
      RunConserves(before, []);
      NextUniqueDraws(Run(EMPTY, before), steps[|steps| - 1]);
    }
  }

  lemma NoItemsUnique()
    ensures UniqueDraws([])
  {
  }
}
