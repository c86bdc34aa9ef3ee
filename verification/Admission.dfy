/**
 Exactly when a reservation is admitted, in terms of the tables before it: the loops of `Reserve` change
 rows as they go, yet no decision depends on an earlier one.
 */
module Admission {
  import opened Text
  import opened Calendar
  import opened Tables
  import opened Transactions
  import opened History
  import opened Store

  /** An unconfigured scope is unlimited; a configured one has the currency and the funds. */
  predicate QuotaAllows(t: Tables, req: Request, scope: Str) {
    scope in t.quotas ==>
      && Lower(t.quotas[scope].currency) == req.currency
      && t.quotas[scope].balance > 0 && t.quotas[scope].balance >= req.estimate
  }

  /** The account a reservation under the policy draws on, as it is or as it would be opened. */
  function CurrentAccount(t: Tables, policy: nat, bounds: (int, int)): Account
    requires policy < |t.policies|
  {
    var key, p := AccountKey(policy, bounds.0), t.policies[policy];
    if key in t.accounts then t.accounts[key] else Account(bounds.1, p.currency, p.limit, 0, 0, 0)
  }

  /** The policy is in the request's currency, has a period now, and is soft or has headroom there. */
  predicate BudgetAllows(t: Tables, dir: Directory, req: Request, policy: nat, now: int)
    requires policy < |t.policies|
  {
    var p := t.policies[policy];
    var bounds := PeriodBounds(dir.zones, now, p.period, p.timezone);
    && p.currency == req.currency && bounds.Some? && bounds.value.0 < bounds.value.1
    && var a := CurrentAccount(t, policy, bounds.value);
       Admits(p, a, req.estimate) && Fits64(a.reserved + req.estimate)
  }

  predicate QuotasAllow(t: Tables, req: Request, scopes: seq<Str>) {
    forall i :: 0 <= i < |scopes| ==> QuotaAllows(t, req, scopes[i])
  }

  predicate BudgetsAllow(t: Tables, dir: Directory, req: Request, tenant: int, group: int, now: int, from: nat) {
    forall k :: from <= k < |t.policies| && Covers(t.policies[k], tenant, group, req) ==>
        BudgetAllows(t, dir, req, k, now)
  }

  /** The quotas after the estimate was taken from each configured scope of the list. */
  ghost predicate Debited(t: Tables, u: Tables, req: Request, scopes: seq<Str>) {
    && u.quotas.Keys == t.quotas.Keys && u.policies == t.policies && u.accounts == t.accounts
    && forall s :: s in t.quotas ==>
         u.quotas[s] == if s in scopes then t.quotas[s].(balance := t.quotas[s].balance - req.estimate) else t.quotas[s]
  }

  predicate DistinctStrs(s: seq<Str>) {
    forall i, j :: 0 <= i < j < |s| ==> s[i] != s[j]
  }

  lemma DebitScopeExact(t: Tables, req: Request, scope: Str)
    ensures DebitScope(t, req, scope).Commit? <==> QuotaAllows(t, req, scope)
    ensures DebitScope(t, req, scope).Commit? ==> Debited(t, DebitScope(t, req, scope).tables, req, [scope])
  {
    hide Lower;
  }

  lemma AllowsElsewhere(t: Tables, w: Tables, req: Request, scope: Str, s: Str)
    requires Debited(t, w, req, [scope]) && s != scope
    ensures QuotaAllows(w, req, s) <==> QuotaAllows(t, req, s)
  {
    hide Lower;
    assert s in t.quotas.Keys <==> s in w.quotas.Keys;
  }

  lemma DebitedThen(t: Tables, w: Tables, u: Tables, req: Request, scope: Str, rest: seq<Str>)
    requires Debited(t, w, req, [scope]) && Debited(w, u, req, rest) && scope !in rest
    ensures Debited(t, u, req, [scope] + rest)
  {
    forall s | s in t.quotas
      ensures u.quotas[s]
              == if s in [scope] + rest then t.quotas[s].(balance := t.quotas[s].balance - req.estimate)
                 else t.quotas[s]
    {
      assert s in t.quotas.Keys && s in w.quotas.Keys;
      assert s in [scope] + rest <==> s == scope || s in rest;
    }
  }

  /** The quota loop commits exactly when every scope allows the request as the tables stood. */
  lemma {:induction false} DebitScopesExact(t: Tables, req: Request, scopes: seq<Str>)
    requires DistinctStrs(scopes)
    ensures DebitScopes(t, req, scopes).Commit? <==> QuotasAllow(t, req, scopes)
    ensures DebitScopes(t, req, scopes).Commit? ==> Debited(t, DebitScopes(t, req, scopes).tables, req, scopes)
    decreases |scopes|
  {
    hide DebitScope, QuotaAllows, Debited;
    if scopes == [] {
      DebitedNone(t, req);
    } else {
      var first, rest := scopes[0], scopes[1..];
      assert scopes == [first] + rest;
      DebitScopeExact(t, req, first);
      if DebitScope(t, req, first).Commit? {
        var w := DebitScope(t, req, first).tables;
        DebitScopesExact(w, req, rest);
        forall i | 0 <= i < |rest| ensures QuotaAllows(w, req, rest[i]) <==> QuotaAllows(t, req, scopes[i + 1]) {
          AllowsElsewhere(t, w, req, first, rest[i]);
        }
        assert QuotasAllow(w, req, rest) <==> QuotasAllow(t, req, scopes) by {
          SplitAllow(t, w, req, scopes);
        }
        if DebitScopes(w, req, rest).Commit? {
          DebitedThen(t, w, DebitScopes(w, req, rest).tables, req, first, rest);
        }
      }
    }
  }

  lemma SplitAllow(t: Tables, w: Tables, req: Request, scopes: seq<Str>)
    requires scopes != [] && QuotaAllows(t, req, scopes[0])
    requires forall i :: 0 <= i < |scopes[1..]| ==>
               (QuotaAllows(w, req, scopes[1..][i]) <==> QuotaAllows(t, req, scopes[i + 1]))
    ensures QuotasAllow(w, req, scopes[1..]) <==> QuotasAllow(t, req, scopes)
  {
    hide QuotaAllows;
    if QuotasAllow(w, req, scopes[1..]) {
      forall i | 0 <= i < |scopes| ensures QuotaAllows(t, req, scopes[i]) {
        if i > 0 {
          assert QuotaAllows(w, req, scopes[1..][i - 1]);
        }
      }
    }
    if QuotasAllow(t, req, scopes) {
      forall i | 0 <= i < |scopes[1..]| ensures QuotaAllows(w, req, scopes[1..][i]) {
        assert QuotaAllows(t, req, scopes[i + 1]);
      }
    }
  }

  lemma DebitedNone(t: Tables, req: Request)
    ensures Debited(t, t, req, [])
  {
  }

  lemma DebitBudgetExact(t: Tables, dir: Directory, req: Request, policy: nat, now: int)
    requires policy < |t.policies|
    ensures DebitBudget(t, dir, req, policy, now).Commit? <==> BudgetAllows(t, dir, req, policy, now)
    ensures var tx := DebitBudget(t, dir, req, policy, now);
            tx.Commit? ==>
              && tx.tables.policies == t.policies
              && forall a: AccountKey :: a.policy != policy ==>
                   (a in tx.tables.accounts <==> a in t.accounts)
                   && (a in t.accounts ==> tx.tables.accounts[a] == t.accounts[a])
  {
    hide PeriodBounds;
  }

  lemma BudgetAllowsElsewhere(t: Tables, w: Tables, dir: Directory, req: Request, policy: nat, k: nat, now: int)
    requires w.policies == t.policies && k < |t.policies| && k != policy
    requires forall a: AccountKey :: a.policy != policy ==>
               (a in w.accounts <==> a in t.accounts) && (a in t.accounts ==> w.accounts[a] == t.accounts[a])
    ensures BudgetAllows(w, dir, req, k, now) <==> BudgetAllows(t, dir, req, k, now)
  {
    hide PeriodBounds, Admits;
    var bounds := PeriodBounds(dir.zones, now, t.policies[k].period, t.policies[k].timezone);
    if bounds.Some? {
      assert AccountKey(k, bounds.value.0).policy != policy;
    }
  }

  /** The policy loop commits exactly when every covering policy allows the request as the tables stood. */
  lemma {:induction false} DebitBudgetsExact(t: Tables, dir: Directory, req: Request, tenant: int, group: int, now: int,
                                             i: nat)
    requires i <= |t.policies|
    ensures DebitBudgets(t, dir, req, tenant, group, now, i).Commit?
            <==> BudgetsAllow(t, dir, req, tenant, group, now, i)
    decreases |t.policies| - i
  {
    hide DebitBudget, BudgetAllows, Covers;
    if i < |t.policies| {
      if !Covers(t.policies[i], tenant, group, req) {
        DebitBudgetsExact(t, dir, req, tenant, group, now, i + 1);
      } else {
        DebitBudgetExact(t, dir, req, i, now);
        if DebitBudget(t, dir, req, i, now).Commit? {
          var w := DebitBudget(t, dir, req, i, now).tables;
          DebitBudgetsExact(w, dir, req, tenant, group, now, i + 1);
          forall k | i < k < |t.policies|
            ensures BudgetAllows(w, dir, req, k, now) <==> BudgetAllows(t, dir, req, k, now)
          {
            BudgetAllowsElsewhere(t, w, dir, req, i, k, now);
          }
        }
      }
    }
  }

  lemma BudgetsFrame(t: Tables, u: Tables, dir: Directory, req: Request, tenant: int, group: int, now: int)
    requires u.policies == t.policies && u.accounts == t.accounts
    ensures BudgetsAllow(u, dir, req, tenant, group, now, 0) <==> BudgetsAllow(t, dir, req, tenant, group, now, 0)
  {
    hide PeriodBounds, Covers, Admits;
    forall k | 0 <= k < |t.policies| ensures BudgetAllows(u, dir, req, k, now) <==> BudgetAllows(t, dir, req, k, now) {
      assert u.policies[k] == t.policies[k];
    }
  }

  /** The request is well formed and its tenant owns the group, application and key it names. */
  predicate Entitled(t: Tables, dir: Directory, req: Request) {
    && ValidRequest(req) && req.tenant in dir.tenants
    && OwnedByTenant(dir, dir.tenants[req.tenant], req) && !LegacyGroup(t, req)
  }

  /** A new reservation is admitted if and only if it is entitled and every configured quota scope and
      every covering budget allows it as the tables stand; admission takes the estimate from exactly the
      configured scopes. */
  lemma ReserveExact(t: Tables, dir: Directory, request: Request, now: int)
    requires Normalized(request).id !in t.reservations
    ensures var req, tx := Normalized(request), ReserveTx(t, dir, request, now);
            tx.Commit? <==>
              && Entitled(t, dir, req)
              && QuotasAllow(t, req, ScopesOf(req))
              && BudgetsAllow(t, dir, req, dir.tenants[req.tenant], GroupOf(dir, req), now, 0)
    ensures var req, tx := Normalized(request), ReserveTx(t, dir, request, now);
            tx.Commit? ==>
              && tx.tables.quotas.Keys == t.quotas.Keys
              && forall s :: s in t.quotas ==>
                   tx.tables.quotas[s].balance == t.quotas[s].balance - if s in ScopesOf(req) then req.estimate else 0
  {
    hide DebitScopes, DebitBudgets, ValidRequest, LegacyGroup, ScopesOf, GroupId, Normalized, QuotasAllow, BudgetsAllow,
         Debited;
    var req := Normalized(request);
    if Entitled(t, dir, req) {
      var tenant := dir.tenants[req.tenant];
      var w := WithRow(t, req.id, NewRow(req, tenant, now));
      ScopesDiffer(req);
      DebitScopesExact(w, req, ScopesOf(req));
      QuotasFrame(t, w, req, ScopesOf(req));
      var tx := DebitScopes(w, req, ScopesOf(req));
      if tx.Commit? {
        DebitedFrame(w, tx.tables, req, ScopesOf(req));
        DebitBudgetsExact(tx.tables, dir, req, tenant, GroupOf(dir, req), now, 0);
        BudgetsFrame(t, tx.tables, dir, req, tenant, GroupOf(dir, req), now);
        if DebitBudgets(tx.tables, dir, req, tenant, GroupOf(dir, req), now, 0).Commit? {
          DebitBudgetsKeepQuotas(tx.tables, dir, req, tenant, GroupOf(dir, req), now, 0);
        }
      }
    }
  }

  function GroupOf(dir: Directory, req: Request): int {
    if req.tenant in dir.tenants && GroupId(dir, dir.tenants[req.tenant], req).Some?
    then GroupId(dir, dir.tenants[req.tenant], req).value else 0
  }

  lemma ScopesDiffer(req: Request)
    ensures DistinctStrs(ScopesOf(req))
  {
    hide ScopesOf, Less;
    ScopesAreSorted(req);
    forall i, j | 0 <= i < j < |ScopesOf(req)| ensures ScopesOf(req)[i] != ScopesOf(req)[j] {
      LessTotal(ScopesOf(req)[i], ScopesOf(req)[j]);
    }
  }

  lemma QuotasFrame(t: Tables, u: Tables, req: Request, scopes: seq<Str>)
    requires u.quotas == t.quotas
    ensures QuotasAllow(u, req, scopes) <==> QuotasAllow(t, req, scopes)
  {
    hide Lower;
    assert forall s :: QuotaAllows(u, req, s) == QuotaAllows(t, req, s);
  }

  lemma DebitedFrame(t: Tables, u: Tables, req: Request, scopes: seq<Str>)
    requires Debited(t, u, req, scopes)
    ensures u.quotas.Keys == t.quotas.Keys && u.policies == t.policies && u.accounts == t.accounts
    ensures forall s :: s in t.quotas ==>
              u.quotas[s].balance == t.quotas[s].balance - if s in scopes then req.estimate else 0
  {
  }

  lemma {:induction false} DebitBudgetsKeepQuotas(t: Tables, dir: Directory, req: Request, tenant: int, group: int,
                                                  now: int, i: nat)
    requires i <= |t.policies| && DebitBudgets(t, dir, req, tenant, group, now, i).Commit?
    ensures DebitBudgets(t, dir, req, tenant, group, now, i).tables.quotas == t.quotas
    decreases |t.policies| - i
  {
    hide Covers, PeriodBounds, Admits;
    if i < |t.policies| {
      if Covers(t.policies[i], tenant, group, req) {
        DebitBudgetsKeepQuotas(DebitBudget(t, dir, req, i, now).tables, dir, req, tenant, group, now, i + 1);
      } else {
        DebitBudgetsKeepQuotas(t, dir, req, tenant, group, now, i + 1);
      }
    }
  }
}
