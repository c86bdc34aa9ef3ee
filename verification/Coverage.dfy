/**
 Reservation said from the request and the tables alone: which budgets apply, exactly when a request is
 admitted, why it is refused, and exactly what admission changes.
 */
module Coverage {
  import opened Text
  import opened Calendar
  import opened Scope
  import opened Tables
  import opened Transactions
  import opened History
  import opened Admission
  import opened Draws
  import opened Policies

  // ---------------------------------------------------------------------------------------
  // What the request is entitled to and draws on
  // ---------------------------------------------------------------------------------------

  /** A budget applies to the requests of its tenant, or of its group, application, application in one
      environment, or key, while it is enabled. */
  predicate Applies(p: Policy, dir: Directory, request: Request) {
    && p.enabled && request.tenant in dir.tenants && p.tenant == dir.tenants[request.tenant]
    && match p.scope
       case TenantWide => true
       case OfGroup(g) =>
         && request.group != [] && (p.tenant, request.group) in dir.groups
         && dir.groups[(p.tenant, request.group)] == g
       case OfApplication(a) => request.app == Some(a)
       case OfApplicationEnv(a, e) => request.app == Some(a) && request.env == e
       case OfKey(k) => request.key == k && k != []
  }

  ghost predicate PositiveScopes(t: Tables) {
    forall i :: 0 <= i < |t.policies| ==> NamesRow(t.policies[i].scope)
  }

  lemma ReachableScopes(steps: seq<Step>)
    ensures PositiveScopes(Run(EMPTY, steps))
  {
    hide Run;
    RunWellFormed(steps);
    assert forall i :: 0 <= i < |Run(EMPTY, steps).policies| ==> PolicyOk(Run(EMPTY, steps).policies[i]);
  }

  /** An identifier, a tenant, a currency of three letters and an amount that is not negative. */
  predicate WellNamed(request: Request) {
    && request.id != [] && request.tenant != [] && request.estimate >= 0 && |request.currency| == 3
    && forall i :: 0 <= i < 3 ==> 65 <= request.currency[i] <= 90 || 97 <= request.currency[i] <= 122
  }

  /** The tenant has the group, application and key the request names, and no quota is left under the bare
      group name. */
  predicate Owns(t: Tables, dir: Directory, tenant: int, request: Request) {
    && (request.group != [] ==> (tenant, request.group) in dir.groups)
    && (request.app.Some? ==> (tenant, request.app.value) in dir.apps)
    && (request.key != [] ==> (tenant, request.key) in dir.keys)
    && (request.group != [] ==> [103, 114, 111, 117, 112, 58] + request.group !in t.quotas)
  }

  /** "tenant:" and the name, "group:" and the escaped names, "key:" and the id. */
  predicate IsScope(request: Request, s: Str) {
    || s == [116, 101, 110, 97, 110, 116, 58] + request.tenant
    || (request.group != []
        && s == [103, 114, 111, 117, 112, 58] + PathEscape(request.tenant) + [47] + PathEscape(request.group))
    || (request.key != [] && s == [107, 101, 121, 58] + request.key)
  }

  predicate SameCurrency(t: Tables, s: Str, request: Request)
    requires s in t.quotas
  {
    Lower(t.quotas[s].currency) == Lower(request.currency)
  }

  /** Reserved, committed and limit of the account the policy has now, or would open. */
  predicate HasHeadroom(t: Tables, policy: nat, start: int, estimate: int)
    requires policy < |t.policies|
  {
    var p, key := t.policies[policy], AccountKey(policy, start);
    var (limit, committed, reserved) :=
      if key in t.accounts then (t.accounts[key].limit, t.accounts[key].committed, t.accounts[key].reserved)
      else (p.limit, 0, 0);
    p.mode == Soft || (committed + reserved < limit && committed + reserved + estimate <= limit)
  }

  function ReservedNow(t: Tables, policy: nat, start: int): int {
    var key := AccountKey(policy, start);
    if key in t.accounts then t.accounts[key].reserved else 0
  }

  predicate BudgetFunds(t: Tables, dir: Directory, request: Request, policy: nat, now: int)
    requires policy < |t.policies|
  {
    var p := t.policies[policy];
    var bounds := PeriodBounds(dir.zones, now, p.period, p.timezone);
    && p.currency == Lower(request.currency) && bounds.Some? && bounds.value.0 < bounds.value.1
    && HasHeadroom(t, policy, bounds.value.0, request.estimate)
    && ReservedNow(t, policy, bounds.value.0) + request.estimate <= 0x7fff_ffff_ffff_ffff
    && ReservedNow(t, policy, bounds.value.0) + request.estimate >= -0x8000_0000_0000_0000
  }

  // ---------------------------------------------------------------------------------------
  // The model's own terms
  // ---------------------------------------------------------------------------------------

  lemma CoversIsApplies(t: Tables, dir: Directory, request: Request, i: nat)
    requires i < |t.policies| && NamesRow(t.policies[i].scope)
    requires request.tenant in dir.tenants && GroupId(dir, dir.tenants[request.tenant], Normalized(request)).Some?
    ensures var tenant, req := dir.tenants[request.tenant], Normalized(request);
            Covers(t.policies[i], tenant, GroupId(dir, tenant, req).value, req)
            <==> Applies(t.policies[i], dir, request)
  {
    hide Lower;
  }

  lemma WellNamedIsValid(request: Request)
    ensures ValidRequest(Normalized(request)) <==> WellNamed(request)
  {
    var c, l := request.currency, Lower(request.currency);
    if |c| == 3 {
      assert forall i :: 0 <= i < 3 ==> (97 <= l[i] <= 122 <==> 65 <= c[i] <= 90 || 97 <= c[i] <= 122);
    }
  }

  lemma OwnsIsEntitled(t: Tables, dir: Directory, request: Request)
    requires request.tenant in dir.tenants
    ensures var tenant, req := dir.tenants[request.tenant], Normalized(request);
            OwnedByTenant(dir, tenant, req) && !LegacyGroup(t, req) <==> Owns(t, dir, tenant, request)
  {
    hide Lower;
  }

  lemma ScopesAre(request: Request, s: Str)
    ensures s in ScopesOf(Normalized(request)) <==> IsScope(request, s)
  {
    hide Lower, PathEscape;
  }

  lemma HeadroomIsAdmits(t: Tables, dir: Directory, request: Request, i: nat, now: int)
    requires i < |t.policies|
    ensures BudgetAllows(t, dir, Normalized(request), i, now) <==> BudgetFunds(t, dir, request, i, now)
  {
    hide PeriodBounds, Lower;
  }

  // ---------------------------------------------------------------------------------------
  // Admission
  // ---------------------------------------------------------------------------------------

  lemma QuotasAre(t: Tables, request: Request)
    ensures QuotasAllow(t, Normalized(request), ScopesOf(Normalized(request)))
            <==> forall s :: s in t.quotas && IsScope(request, s) ==>
                   SameCurrency(t, s, request) && t.quotas[s].balance > 0 && t.quotas[s].balance >= request.estimate
  {
    hide Lower, ScopesOf, IsScope;
    var req := Normalized(request);
    var scopes := ScopesOf(req);
    forall s ensures s in scopes <==> IsScope(request, s) {
      ScopesAre(request, s);
    }
    if QuotasAllow(t, req, scopes) {
      forall s | s in t.quotas && IsScope(request, s)
        ensures SameCurrency(t, s, request) && t.quotas[s].balance > 0 && t.quotas[s].balance >= request.estimate
      {
        var i :| 0 <= i < |scopes| && scopes[i] == s;
        assert QuotaAllows(t, req, scopes[i]);
      }
    }
  }

  lemma BudgetsAre(t: Tables, dir: Directory, request: Request, now: int)
    requires PositiveScopes(t) && request.tenant in dir.tenants
    requires GroupId(dir, dir.tenants[request.tenant], Normalized(request)).Some?
    ensures var tenant, req := dir.tenants[request.tenant], Normalized(request);
            BudgetsAllow(t, dir, req, tenant, GroupId(dir, tenant, req).value, now, 0)
            <==> forall i :: 0 <= i < |t.policies| && Applies(t.policies[i], dir, request) ==>
                   BudgetFunds(t, dir, request, i, now)
  {
    hide Applies, BudgetFunds, BudgetAllows, Covers, GroupId, Normalized, NamesRow;
    forall i | 0 <= i < |t.policies|
      ensures var tenant, req := dir.tenants[request.tenant], Normalized(request);
              && (Covers(t.policies[i], tenant, GroupId(dir, tenant, req).value, req)
                  <==> Applies(t.policies[i], dir, request))
              && (BudgetAllows(t, dir, req, i, now) <==> BudgetFunds(t, dir, request, i, now))
    {
      CoversIsApplies(t, dir, request, i);
      HeadroomIsAdmits(t, dir, request, i, now);
    }
  }

  /** A request under a new id is admitted if and only if it is well named, its tenant is known and owns what
      the request names, every configured quota scope of it is in its currency with a positive balance that
      covers the estimate, and every budget that applies to it is in its currency, has a period now and is
      soft or has the headroom. */
  lemma AdmittedIff(t: Tables, dir: Directory, request: Request, now: int)
    requires PositiveScopes(t) && request.id !in t.reservations
    ensures ReserveTx(t, dir, request, now).Commit? <==>
              && WellNamed(request) && request.tenant in dir.tenants
              && Owns(t, dir, dir.tenants[request.tenant], request)
              && (forall s :: s in t.quotas && IsScope(request, s) ==>
                    SameCurrency(t, s, request) && t.quotas[s].balance > 0 && t.quotas[s].balance >= request.estimate)
              && (forall i :: 0 <= i < |t.policies| && Applies(t.policies[i], dir, request) ==>
                    BudgetFunds(t, dir, request, i, now))
  {
    hide ReserveTx, WellNamed, Owns, IsScope, SameCurrency, Applies, BudgetFunds, ValidRequest, LegacyGroup, ScopesOf,
         QuotasAllow, BudgetsAllow, Lower, PositiveScopes;
    ReserveExact(t, dir, request, now);
    WellNamedIsValid(request);
    QuotasAre(t, request);
    if request.tenant in dir.tenants {
      OwnsIsEntitled(t, dir, request);
      if OwnedByTenant(dir, dir.tenants[request.tenant], Normalized(request)) {
        BudgetsAre(t, dir, request, now);
      }
    }
  }

  /** A budget that does not apply has no say: replacing it by any other that does not apply either leaves the
      admission of every request as it was. */
  lemma OtherBudgetsHaveNoSay(t: Tables, dir: Directory, request: Request, now: int, k: nat, p: Policy)
    requires PositiveScopes(t) && request.id !in t.reservations && k < |t.policies| && NamesRow(p.scope)
    requires !Applies(t.policies[k], dir, request) && !Applies(p, dir, request)
    ensures ReserveTx(t.(policies := t.policies[k := p]), dir, request, now).Commit?
            <==> ReserveTx(t, dir, request, now).Commit?
  {
    hide ReserveTx, WellNamed, IsScope, Applies, PeriodBounds, Lower, NamesRow;
    var u := t.(policies := t.policies[k := p]);
    AdmittedIff(t, dir, request, now);
    AdmittedIff(u, dir, request, now);
    forall i | 0 <= i < |t.policies| && i != k
      ensures BudgetFunds(u, dir, request, i, now) <==> BudgetFunds(t, dir, request, i, now)
    {
      assert u.policies[i] == t.policies[i];
    }
    SameQuotaFunds(t, u, dir, request);
  }

  lemma SameQuotaFunds(t: Tables, u: Tables, dir: Directory, request: Request)
    requires u == t.(policies := u.policies)
    ensures forall s :: s in t.quotas ==> (SameCurrency(u, s, request) <==> SameCurrency(t, s, request))
    ensures request.tenant in dir.tenants ==>
              (Owns(u, dir, dir.tenants[request.tenant], request)
               <==> Owns(t, dir, dir.tenants[request.tenant], request))
  {
  }

  // ---------------------------------------------------------------------------------------
  // What admission changes
  // ---------------------------------------------------------------------------------------

  lemma {:induction false} BudgetTargetsAre(t: Tables, dir: Directory, req: Request, tenant: int, group: int, now: int,
                                            i: nat, g: Target)
    requires i <= |t.policies|
    ensures g in BudgetTargets(t, dir, req, tenant, group, now, i)
            <==> && g.OnAccount? && i <= g.account.policy < |t.policies|
                 && Covers(t.policies[g.account.policy], tenant, group, req)
                 && var p := t.policies[g.account.policy];
                    var bounds := PeriodBounds(dir.zones, now, p.period, p.timezone);
                    bounds.Some? && bounds.value.0 == g.account.start
    decreases |t.policies| - i
  {
    hide PeriodBounds, Covers;
    if i < |t.policies| {
      BudgetTargetsAre(t, dir, req, tenant, group, now, i + 1, g);
    }
  }

  lemma {:induction false} QuotaTargetsAre(t: Tables, scopes: seq<Str>, g: Target)
    ensures g in QuotaTargets(t, scopes) <==> g.OnQuota? && g.scope in scopes && g.scope in t.quotas
    decreases |scopes|
  {
    if scopes != [] {
      assert scopes == [scopes[0]] + scopes[1..];
      QuotaTargetsAre(t, scopes[1..], g);
    }
  }

  /** The new items of an admitted request, each holding its estimate in full: one on every configured quota
      scope of the request, and one on the current account of every budget that applies to it. */
  lemma ItemsAre(t: Tables, dir: Directory, request: Request, now: int, g: Target)
    requires PositiveScopes(t) && request.id !in t.reservations && ReserveTx(t, dir, request, now).Commit?
    ensures var u := ReserveTx(t, dir, request, now).tables;
            && t.items <= u.items
            && (forall j :: |t.items| <= j < |u.items| ==>
                  u.items[j] == Item(request.id, u.items[j].target, request.estimate, request.estimate, 0, 0))
            && ((exists j :: |t.items| <= j < |u.items| && u.items[j].target == g) <==>
                  match g
                  case OnQuota(s) => s in t.quotas && IsScope(request, s)
                  case OnAccount(a) =>
                    && a.policy < |t.policies| && Applies(t.policies[a.policy], dir, request)
                    && var p := t.policies[a.policy];
                       var bounds := PeriodBounds(dir.zones, now, p.period, p.timezone);
                       bounds.Some? && bounds.value.0 == a.start)
  {
    hide ReserveTx, IsScope, Applies, PeriodBounds, ScopesOf, Lower, QuotaTargets, BudgetTargets, Covers, GroupId,
         NamesRow, WellNamed, Owns, SameCurrency, BudgetFunds;
    AdmittedIff(t, dir, request, now);
    ReserveDrawsOnAll(t, dir, request, now);
    var u, req, tenant := ReserveTx(t, dir, request, now).tables, Normalized(request), dir.tenants[request.tenant];
    GroupKnown(t, dir, request);
    var group := GroupId(dir, tenant, req).value;
    var targets := TargetsOf(t, dir, req, tenant, now);
    assert u.items == t.items + Holds(req, targets);
    HoldsHave(t.items, req, targets, g);
    QuotaTargetsAre(t, ScopesOf(req), g);
    BudgetTargetsAre(t, dir, req, tenant, group, now, 0, g);
    if g.OnQuota? {
      ScopesAre(request, g.scope);
    } else if g.account.policy < |t.policies| {
      CoversIsApplies(t, dir, request, g.account.policy);
    }
  }

  lemma GroupKnown(t: Tables, dir: Directory, request: Request)
    requires request.tenant in dir.tenants && Owns(t, dir, dir.tenants[request.tenant], request)
    ensures GroupId(dir, dir.tenants[request.tenant], Normalized(request)).Some?
  {
    hide Lower;
  }

  lemma HoldsHave(items: seq<Item>, req: Request, targets: seq<Target>, g: Target)
    ensures var all := items + Holds(req, targets);
            && (forall j :: |items| <= j < |all| ==>
                  all[j] == Item(req.id, all[j].target, req.estimate, req.estimate, 0, 0))
            && ((exists j :: |items| <= j < |all| && all[j].target == g) <==> g in targets)
  {
    var all := items + Holds(req, targets);
    if g in targets {
      var k :| 0 <= k < |targets| && targets[k] == g;
      assert all[|items| + k].target == g;
    }
    if exists j :: |items| <= j < |all| && all[j].target == g {
      var j :| |items| <= j < |all| && all[j].target == g;
      assert targets[j - |items|] == g;
    }
  }

  lemma {:induction false} DebitedAccounts(t: Tables, dir: Directory, req: Request, tenant: int, group: int, now: int,
                                           i: nat, a: AccountKey)
    requires i <= |t.policies| && DebitBudgets(t, dir, req, tenant, group, now, i).Commit?
    ensures var u := DebitBudgets(t, dir, req, tenant, group, now, i).tables;
            if OnAccount(a) in BudgetTargets(t, dir, req, tenant, group, now, i)
            then a in u.accounts && u.accounts[a] == Drawn(t, dir, req, a, now)
            else (a in u.accounts <==> a in t.accounts) && (a in t.accounts ==> u.accounts[a] == t.accounts[a])
    decreases |t.policies| - i
  {
    hide PeriodBounds, Covers, DebitBudget, Drawn, BudgetTargets;
    BudgetTargetsAre(t, dir, req, tenant, group, now, i, OnAccount(a));
    if i < |t.policies| {
      BudgetTargetsAre(t, dir, req, tenant, group, now, i + 1, OnAccount(a));
      if Covers(t.policies[i], tenant, group, req) {
        var w := DebitBudget(t, dir, req, i, now).tables;
        DebitedAccount(t, dir, req, i, now, a);
        DebitedAccounts(w, dir, req, tenant, group, now, i + 1, a);
        BudgetTargetsFrame(t, w, dir, req, tenant, group, now, i + 1);
      } else {
        DebitedAccounts(t, dir, req, tenant, group, now, i + 1, a);
      }
    }
  }

  lemma DebitedAccount(t: Tables, dir: Directory, req: Request, i: nat, now: int, a: AccountKey)
    requires i < |t.policies| && DebitBudget(t, dir, req, i, now).Commit?
    ensures var w, p := DebitBudget(t, dir, req, i, now).tables, t.policies[i];
            var bounds := PeriodBounds(dir.zones, now, p.period, p.timezone);
            && w.policies == t.policies && bounds.Some?
            && (if a == AccountKey(i, bounds.value.0)
                then a in w.accounts && w.accounts[a] == Drawn(t, dir, req, a, now)
                else (a in w.accounts <==> a in t.accounts) && (a in t.accounts ==> w.accounts[a] == t.accounts[a]))
            && (a.policy != i ==> Drawn(w, dir, req, a, now) == Drawn(t, dir, req, a, now))
  {
    hide PeriodBounds, Admits;
  }

  /** The account with the estimate reserved on it, opened at its policy's limit when it was not there. */
  function Drawn(t: Tables, dir: Directory, req: Request, a: AccountKey, now: int): Account {
    if a in t.accounts then t.accounts[a].(reserved := t.accounts[a].reserved + req.estimate)
    else if a.policy < |t.policies| then
      var p := t.policies[a.policy];
      var bounds := PeriodBounds(dir.zones, now, p.period, p.timezone);
      Account(if bounds.Some? then bounds.value.1 else 0, p.currency, p.limit, req.estimate, 0, 0)
    else Account(0, [], 0, 0, 0, 0)
  }

  /** The accounts of an admitted request: those of the budgets that apply have the estimate reserved on them,
      opened for the current period at the policy's limit where needed; all others are as they were. */
  lemma AccountsAre(t: Tables, dir: Directory, request: Request, now: int, a: AccountKey)
    requires PositiveScopes(t) && request.id !in t.reservations && ReserveTx(t, dir, request, now).Commit?
    ensures var u := ReserveTx(t, dir, request, now).tables;
            if exists j :: |t.items| <= j < |u.items| && u.items[j].target == OnAccount(a)
            then a in u.accounts && u.accounts[a] == Drawn(t, dir, request, a, now)
            else (a in u.accounts <==> a in t.accounts) && (a in t.accounts ==> u.accounts[a] == t.accounts[a])
  {
    var req := Normalized(request);
    hide DebitScopes, DebitBudgets, Normalized, ValidRequest, LegacyGroup, ScopesOf, GroupId, BudgetTargets,
         QuotaTargets, PeriodBounds, IsScope, Applies, Drawn, Holds, NamesRow;
    SameRequest(t, dir, request, a, now);
    var tenant := dir.tenants[req.tenant];
    var group := GroupId(dir, tenant, req).value;
    var w := WithRow(t, req.id, NewRow(req, tenant, now));
    var v := DebitScopes(w, req, ScopesOf(req)).tables;
    ReserveDrawsOnAll(t, dir, request, now);
    HoldsHave(t.items, req, TargetsOf(t, dir, req, tenant, now), OnAccount(a));
    QuotaTargetsAre(t, ScopesOf(req), OnAccount(a));
    ScopesDiffer(req);
    DebitScopesExact(w, req, ScopesOf(req));
    DebitedFrame(w, v, req, ScopesOf(req));
    DebitedAccounts(v, dir, req, tenant, group, now, 0, a);
    BudgetTargetsFrame(t, v, dir, req, tenant, group, now, 0);
    DrawnFrame(t, v, dir, req, a, now);
  }

  lemma SameRequest(t: Tables, dir: Directory, request: Request, a: AccountKey, now: int)
    ensures var req := Normalized(request);
            && req.id == request.id && req.tenant == request.tenant
            && Drawn(t, dir, req, a, now) == Drawn(t, dir, request, a, now)
  {
    hide Lower, PeriodBounds;
  }

  lemma DrawnFrame(t: Tables, v: Tables, dir: Directory, req: Request, a: AccountKey, now: int)
    requires v.accounts == t.accounts && v.policies == t.policies
    ensures Drawn(v, dir, req, a, now) == Drawn(t, dir, req, a, now)
  {
    hide PeriodBounds;
  }

  /** The rest of an admitted request: its row is new and reserved, the configured scopes lose the estimate,
      and nothing else changes. */
  lemma RowAndQuotasAre(t: Tables, dir: Directory, request: Request, now: int)
    requires request.id !in t.reservations && ReserveTx(t, dir, request, now).Commit?
    ensures var u := ReserveTx(t, dir, request, now).tables;
            && request.tenant in dir.tenants && request.id in u.reservations
            && u.reservations
               == t.reservations[request.id :=
                    Reservation(dir.tenants[request.tenant], u.reservations[request.id].identity, Reserved, None, [], 1,
                                None, false, now)]
            && u.reservations[request.id].identity
               == request.(currency := Lower(request.currency),
                           prices := if request.prices == [] then [123, 125] else request.prices)
            && u.policies == t.policies && u.events == t.events && u.usage == t.usage
            && u.quotas.Keys == t.quotas.Keys
            && forall s :: s in t.quotas ==>
                 u.quotas[s]
                 == t.quotas[s].(balance := t.quotas[s].balance - if IsScope(request, s) then request.estimate else 0)
  {
    hide ReserveTx, ValidRequest, AccountsKept, Lower, IsScope, ScopesOf, QuotasAllow, BudgetsAllow, LegacyGroup,
         OwnedByTenant;
    ReserveEffect(t, dir, request, now);
    ReserveExact(t, dir, request, now);
    ReserveKeepsCurrency(t, dir, request, now);
    forall s ensures s in ScopesOf(Normalized(request)) <==> IsScope(request, s) {
      ScopesAre(request, s);
    }
  }

  lemma ReserveKeepsCurrency(t: Tables, dir: Directory, request: Request, now: int)
    requires ReserveTx(t, dir, request, now).Commit?
    ensures QuotasKept(t, ReserveTx(t, dir, request, now).tables)
  {
    hide ReserveTx, PoliciesKept, RowsKept, ItemsKept, AccountsKept;
    ReserveExtends(t, dir, request, now);
  }

  // ---------------------------------------------------------------------------------------
  // Why a request is refused
  // ---------------------------------------------------------------------------------------

  lemma {:induction false} ScopeRefusal(t: Tables, req: Request, scopes: seq<Str>) returns (k: nat)
    requires DistinctStrs(scopes) && DebitScopes(t, req, scopes).Abort?
    ensures k < |scopes| && scopes[k] in t.quotas && forall j :: 0 <= j < k ==> QuotaAllows(t, req, scopes[j])
    ensures !QuotaAllows(t, req, scopes[k])
    ensures DebitScopes(t, req, scopes).error
            == if Lower(t.quotas[scopes[k]].currency) != req.currency then CurrencyMismatch else Insufficient
    decreases |scopes|
  {
    hide Lower;
    var tx := DebitScope(t, req, scopes[0]);
    DebitScopeExact(t, req, scopes[0]);
    k := 0;
    if tx.Commit? {
      var n := ScopeRefusal(tx.tables, req, scopes[1..]);
      k := n + 1;
      forall j | 0 < j < |scopes|
        ensures QuotaAllows(tx.tables, req, scopes[j]) <==> QuotaAllows(t, req, scopes[j])
        ensures scopes[j] in tx.tables.quotas <==> scopes[j] in t.quotas
        ensures scopes[j] in t.quotas ==> tx.tables.quotas[scopes[j]].currency == t.quotas[scopes[j]].currency
        ensures scopes[j] == scopes[1..][j - 1]
      {
        AllowsElsewhere(t, tx.tables, req, scopes[0], scopes[j]);
        assert scopes[j] in t.quotas.Keys <==> scopes[j] in tx.tables.quotas.Keys;
      }
    }
  }

  /** The first reason a budget has to refuse: its currency, its time zone or period, an empty period, no
      headroom, a column range. */
  function BudgetError(t: Tables, dir: Directory, currency: Str, estimate: int, policy: nat, now: int): Error
    requires policy < |t.policies|
  {
    var p := t.policies[policy];
    var bounds := PeriodBounds(dir.zones, now, p.period, p.timezone);
    if p.currency != currency then CurrencyMismatch
    else if bounds.None? then InvalidPolicy
    else if bounds.value.1 <= bounds.value.0 then CheckViolation
    else if !HasHeadroom(t, policy, bounds.value.0, estimate) then Insufficient
    else CheckViolation
  }

  lemma {:induction false} BudgetRefusal(t: Tables, dir: Directory, req: Request, tenant: int, group: int, now: int,
                                         i: nat)
    returns (k: nat)
    requires i <= |t.policies| && DebitBudgets(t, dir, req, tenant, group, now, i).Abort?
    ensures i <= k < |t.policies| && Covers(t.policies[k], tenant, group, req) && !BudgetAllows(t, dir, req, k, now)
    ensures forall j :: i <= j < k && Covers(t.policies[j], tenant, group, req) ==> BudgetAllows(t, dir, req, j, now)
    ensures DebitBudgets(t, dir, req, tenant, group, now, i).error
            == BudgetError(t, dir, req.currency, req.estimate, k, now)
    decreases |t.policies| - i
  {
    hide PeriodBounds, Covers;
    if !Covers(t.policies[i], tenant, group, req) {
      k := BudgetRefusal(t, dir, req, tenant, group, now, i + 1);
    } else {
      var tx := DebitBudget(t, dir, req, i, now);
      DebitBudgetExact(t, dir, req, i, now);
      if tx.Abort? {
        k := i;
      } else {
        k := BudgetRefusal(tx.tables, dir, req, tenant, group, now, i + 1);
        forall j | i < j < |t.policies|
          ensures BudgetAllows(tx.tables, dir, req, j, now) <==> BudgetAllows(t, dir, req, j, now)
          ensures BudgetError(tx.tables, dir, req.currency, req.estimate, j, now)
                  == BudgetError(t, dir, req.currency, req.estimate, j, now)
        {
          BudgetAllowsElsewhere(t, tx.tables, dir, req, i, j, now);
          SameBudgetError(t, tx.tables, dir, req, i, j, now);
        }
      }
    }
  }

  lemma SameBudgetError(t: Tables, w: Tables, dir: Directory, req: Request, i: nat, j: nat, now: int)
    requires w.policies == t.policies && j < |t.policies| && i != j
    requires forall a: AccountKey :: a.policy != i ==>
               (a in w.accounts <==> a in t.accounts) && (a in t.accounts ==> w.accounts[a] == t.accounts[a])
    ensures BudgetError(w, dir, req.currency, req.estimate, j, now)
            == BudgetError(t, dir, req.currency, req.estimate, j, now)
  {
    hide PeriodBounds;
    var bounds := PeriodBounds(dir.zones, now, t.policies[j].period, t.policies[j].timezone);
    if bounds.Some? {
      assert AccountKey(j, bounds.value.0).policy != i;
    }
  }

  /** Why a request under a new id is refused, in this order: it is malformed, its tenant is unknown, the tenant
      does not own what it names; else the first quota scope in scope order that stands in the way, by its
      currency or for want of funds; else the first budget in id order that does. */
  lemma RefusedBecause(t: Tables, dir: Directory, request: Request, now: int)
    requires PositiveScopes(t) && request.id !in t.reservations && ReserveTx(t, dir, request, now).Abort?
    ensures var error := ReserveTx(t, dir, request, now).error;
            if !WellNamed(request) then error == InvalidPolicy
            else if request.tenant !in dir.tenants then error == NotFound
            else if !Owns(t, dir, dir.tenants[request.tenant], request) then error == InvalidPolicy
            else
              || (exists s :: s in t.quotas && IsScope(request, s)
                              && error == (if SameCurrency(t, s, request) then Insufficient else CurrencyMismatch)
                              && (SameCurrency(t, s, request) ==>
                                    t.quotas[s].balance <= 0 || t.quotas[s].balance < request.estimate))
              || (exists i :: 0 <= i < |t.policies| && Applies(t.policies[i], dir, request)
                              && !BudgetFunds(t, dir, request, i, now)
                              && error == BudgetError(t, dir, Lower(request.currency), request.estimate, i, now))
  {
    var req := Normalized(request);
    hide DebitScopes, DebitBudgets, ValidRequest, LegacyGroup, ScopesOf, GroupId, WellNamed, Owns, IsScope, Applies,
         BudgetFunds, BudgetError, PeriodBounds, Lower, Covers, BudgetAllows, NamesRow, OwnedByTenant;
    WellNamedIsValid(request);
    if WellNamed(request) && request.tenant in dir.tenants {
      OwnsIsEntitled(t, dir, request);
      var tenant := dir.tenants[request.tenant];
      if Owns(t, dir, tenant, request) {
        GroupKnown(t, dir, request);
        var group := GroupId(dir, tenant, req).value;
        var w := WithRow(t, req.id, NewRow(req, tenant, now));
        ScopesDiffer(req);
        DebitScopesExact(w, req, ScopesOf(req));
        var tx := DebitScopes(w, req, ScopesOf(req));
        if tx.Abort? {
          var k := ScopeRefusal(w, req, ScopesOf(req));
          ScopesAre(request, ScopesOf(req)[k]);
          assert SameCurrency(t, ScopesOf(req)[k], request)
                 <==> Lower(w.quotas[ScopesOf(req)[k]].currency) == req.currency;
        } else {
          DebitedFrame(w, tx.tables, req, ScopesOf(req));
          var k := BudgetRefusal(tx.tables, dir, req, tenant, group, now, 0);
          BudgetFrame(t, tx.tables, dir, req, k, now);
          CoversIsApplies(t, dir, request, k);
          HeadroomIsAdmits(t, dir, request, k, now);
        }
      }
    }
  }

  lemma BudgetFrame(t: Tables, u: Tables, dir: Directory, req: Request, k: nat, now: int)
    requires u.policies == t.policies && u.accounts == t.accounts && k < |t.policies|
    ensures BudgetAllows(u, dir, req, k, now) <==> BudgetAllows(t, dir, req, k, now)
    ensures BudgetError(u, dir, req.currency, req.estimate, k, now)
            == BudgetError(t, dir, req.currency, req.estimate, k, now)
  {
    hide PeriodBounds;
  }

  /** A request under an id that is taken changes nothing: it succeeds for the same tenant and request, and is a
      conflict otherwise, once it is well named and its tenant known. */
  lemma RepeatIs(t: Tables, dir: Directory, request: Request, now: int)
    requires request.id in t.reservations
    ensures ReserveTx(t, dir, request, now)
            == if !WellNamed(request) then Abort(InvalidPolicy)
               else if request.tenant !in dir.tenants then Abort(NotFound)
               else if t.reservations[request.id].tenant == dir.tenants[request.tenant]
                       && t.reservations[request.id].identity
                          == request.(currency := Lower(request.currency),
                                      prices := if request.prices == [] then [123, 125] else request.prices)
               then Commit(t) else Abort(Conflict)
  {
    hide WellNamed, ValidRequest, Lower, DebitScopes, DebitBudgets;
    WellNamedIsValid(request);
  }
}
