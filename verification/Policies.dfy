/**
 What every reachable state says about budget policies and their accounts: policies stay valid, an
 account is a non-empty period in its policy's currency, and no reservation ever draws on an account
 in another currency. And what a limit change may touch.
 */
module Policies {
  import opened Text
  import opened Calendar
  import opened Tables
  import opened Transactions
  import opened History
  import opened Conservation
  import opened Outcomes

  predicate PolicyOk(p: Policy) {
    && p.limit >= 0 && p.version >= 1 && ValidCurrency(p.currency) && ValidThresholds(p.thresholds)
    && (p.scope.OfApplicationEnv? ==> p.scope.env in ENVIRONMENTS)
    && NamesRow(p.scope)
  }

  /** A scope of a group or an application names a row id, which is positive. */
  predicate NamesRow(scope: BudgetScope) {
    match scope
    case OfGroup(g) => g > 0
    case OfApplication(a) => a > 0
    case OfApplicationEnv(a, _) => a > 0
    case _ => true
  }

  predicate AccountOk(t: Tables, a: AccountKey, account: Account) {
    && a.policy < |t.policies| && account.currency == t.policies[a.policy].currency
    && account.limit >= 0 && a.start < account.end
  }

  predicate DrawOk(t: Tables, it: Item) {
    it.target.OnAccount? ==>
      && it.target.account.policy < |t.policies| && it.reservation in t.reservations
      && t.reservations[it.reservation].identity.currency == t.policies[it.target.account.policy].currency
  }

  ghost predicate WellFormed(t: Tables) {
    && (forall i :: 0 <= i < |t.policies| ==> PolicyOk(t.policies[i]))
    && (forall a :: a in t.accounts ==> AccountOk(t, a, t.accounts[a]))
    && (forall i :: 0 <= i < |t.items| ==> DrawOk(t, t.items[i]))
  }

  /** Rows keep their terms, so draws stay in their currency. */
  lemma DrawsKept(t: Tables, u: Tables)
    requires WellFormed(t) && Extends(t, u) && |u.items| == |t.items|
    ensures forall i :: 0 <= i < |u.items| ==> DrawOk(u, u.items[i])
  {
    hide PolicyOk;
    forall i | 0 <= i < |u.items| ensures DrawOk(u, u.items[i]) {
      assert DrawOk(t, t.items[i]) && SameOrigin(t.items[i], u.items[i]);
      if t.items[i].target.OnAccount? {
        var k := t.items[i].target.account.policy;
        assert SameTerms(t.policies[k], u.policies[k]);
      }
    }
  }

  lemma WellFormedKept(t: Tables, u: Tables)
    requires WellFormed(t) && Extends(t, u) && |u.items| == |t.items|
    requires u.policies == t.policies && SameAccountTerms(t, u)
    ensures WellFormed(u)
  {
    hide PolicyOk, DrawOk, Extends;
    DrawsKept(t, u);
    forall a | a in u.accounts ensures AccountOk(u, a, u.accounts[a]) {
      assert AccountOk(t, a, t.accounts[a]) && SameTermsOf(t.accounts[a], u.accounts[a]);
    }
  }

  // ---------------------------------------------------------------------------------------
  // Reserving
  // ---------------------------------------------------------------------------------------

  lemma {:induction false} DebitScopesWellFormed(t: Tables, req: Request, scopes: seq<Str>)
    requires WellFormed(t) && DebitScopes(t, req, scopes).Commit?
    ensures WellFormed(DebitScopes(t, req, scopes).tables)
    decreases |scopes|
  {
    hide PolicyOk, AccountOk, Lower;
    if scopes != [] {
      var w := DebitScope(t, req, scopes[0]).tables;
      assert forall i :: 0 <= i < |w.items| ==> DrawOk(w, w.items[i]) by {
        assert forall i :: 0 <= i < |t.items| ==> DrawOk(t, t.items[i]) && DrawOk(w, t.items[i]);
      }
      forall a | a in w.accounts ensures AccountOk(w, a, w.accounts[a]) {
        SamePoliciesAccount(t, w, a);
      }
      DebitScopesWellFormed(w, req, scopes[1..]);
    }
  }

  lemma SamePoliciesAccount(t: Tables, u: Tables, a: AccountKey)
    requires u.policies == t.policies && a in t.accounts && AccountOk(t, a, t.accounts[a])
    ensures AccountOk(u, a, t.accounts[a])
  {
  }

  lemma DebitBudgetWellFormed(t: Tables, dir: Directory, req: Request, policy: nat, now: int)
    requires WellFormed(t) && policy < |t.policies| && DebitBudget(t, dir, req, policy, now).Commit?
    requires req.id in t.reservations && t.reservations[req.id].identity.currency == req.currency
    ensures WellFormed(DebitBudget(t, dir, req, policy, now).tables)
  {
    hide PeriodBounds, ValidCurrency, ValidThresholds;
    var u, p := DebitBudget(t, dir, req, policy, now).tables, t.policies[policy];
    var bounds := PeriodBounds(dir.zones, now, p.period, p.timezone).value;
    var key := AccountKey(policy, bounds.0);
    forall a | a in u.accounts ensures AccountOk(u, a, u.accounts[a]) {
      if a in t.accounts {
        assert AccountOk(t, a, t.accounts[a]);
      } else {
        assert PolicyOk(p);
      }
    }
    forall i | 0 <= i < |u.items| ensures DrawOk(u, u.items[i]) {
      if i < |t.items| {
        assert DrawOk(t, t.items[i]);
      }
    }
  }

  lemma {:induction false} DebitBudgetsWellFormed(t: Tables, dir: Directory, req: Request, tenant: int, group: int,
                                                  now: int, i: nat)
    requires WellFormed(t) && i <= |t.policies| && DebitBudgets(t, dir, req, tenant, group, now, i).Commit?
    requires req.id in t.reservations && t.reservations[req.id].identity.currency == req.currency
    ensures WellFormed(DebitBudgets(t, dir, req, tenant, group, now, i).tables)
    decreases |t.policies| - i
  {
    hide WellFormed, DebitBudget, Covers, QuotasKept, AccountsKept;
    if i < |t.policies| {
      if Covers(t.policies[i], tenant, group, req) {
        DebitBudgetWellFormed(t, dir, req, i, now);
        DebitBudgetHolds(t, dir, req, i, now);
        DebitBudgetsWellFormed(DebitBudget(t, dir, req, i, now).tables, dir, req, tenant, group, now, i + 1);
      } else {
        DebitBudgetsWellFormed(t, dir, req, tenant, group, now, i + 1);
      }
    }
  }

  lemma InsertWellFormed(t: Tables, id: Str, r: Reservation)
    requires WellFormed(t) && id !in t.reservations
    ensures WellFormed(WithRow(t, id, r))
  {
    hide PolicyOk;
    var u := WithRow(t, id, r);
    forall i | 0 <= i < |u.items| ensures DrawOk(u, u.items[i]) {
      assert DrawOk(t, t.items[i]);
    }
    forall a | a in u.accounts ensures AccountOk(u, a, u.accounts[a]) {
      assert AccountOk(t, a, t.accounts[a]);
    }
  }

  lemma ReserveWellFormed(t: Tables, dir: Directory, request: Request, now: int)
    requires WellFormed(t) && ReserveTx(t, dir, request, now).Commit?
    ensures WellFormed(ReserveTx(t, dir, request, now).tables)
  {
    hide DebitScopes, DebitBudgets, Normalized, ValidRequest, LegacyGroup, ScopesOf, GroupId, WellFormed, QuotasKept,
         AccountsKept;
    var req := Normalized(request);
    if req.id !in t.reservations {
      var tenant := dir.tenants[req.tenant];
      var w := WithRow(t, req.id, NewRow(req, tenant, now));
      InsertWellFormed(t, req.id, NewRow(req, tenant, now));
      DebitScopesWellFormed(w, req, ScopesOf(req));
      DebitScopesHold(w, req, ScopesOf(req));
      DebitBudgetsWellFormed(DebitScopes(w, req, ScopesOf(req)).tables, dir, req, tenant,
                             GroupId(dir, tenant, req).value, now, 0);
    }
  }

  // ---------------------------------------------------------------------------------------
  // Operators
  // ---------------------------------------------------------------------------------------

  /** A patch changes the policy's limit, switch and version, and of all accounts at most the limit of the
      one whose period contains the patch's clock reading; no money moves. */
  lemma PatchTouchesOnePeriod(t: Tables, dir: Directory, tenant: int, id: nat, patch: Patch, now: int)
    requires PatchTx(t, dir, tenant, id, patch, now).Commit?
    ensures var u := PatchTx(t, dir, tenant, id, patch, now).tables;
            && id < |t.policies| && |u.policies| == |t.policies|
            && (forall i :: 0 <= i < |t.policies| && i != id ==> u.policies[i] == t.policies[i])
            && u.policies[id] == t.policies[id].(limit := u.policies[id].limit, enabled := u.policies[id].enabled,
                                                 version := t.policies[id].version + 1)
            && u.policies[id].limit == (if patch.limit.Some? then patch.limit.value else t.policies[id].limit)
            && u.policies[id].enabled == (if patch.enabled.Some? then patch.enabled.value else t.policies[id].enabled)
            && u.quotas == t.quotas && u.reservations == t.reservations && u.items == t.items && u.usage == t.usage
            && u.accounts.Keys == t.accounts.Keys
            && forall a :: a in t.accounts && u.accounts[a] != t.accounts[a] ==>
                 && a.policy == id && u.accounts[a] == t.accounts[a].(limit := u.policies[id].limit)
                 && var bounds := PeriodBounds(dir.zones, now, t.policies[id].period, t.policies[id].timezone);
                    bounds.Some? && bounds.value.0 == a.start
  {
    hide PeriodBounds, Emit;
  }

  lemma PatchWellFormed(t: Tables, dir: Directory, tenant: int, id: nat, patch: Patch, now: int)
    requires WellFormed(t) && PatchTx(t, dir, tenant, id, patch, now).Commit?
    ensures WellFormed(PatchTx(t, dir, tenant, id, patch, now).tables)
  {
    hide PatchTx, PeriodBounds, Extends, ValidCurrency, ValidThresholds;
    var u := PatchTx(t, dir, tenant, id, patch, now).tables;
    PatchTouchesOnePeriod(t, dir, tenant, id, patch, now);
    PatchExtends(t, dir, tenant, id, patch, now);
    DrawsKept(t, u);
    PatchedOk(t, dir, tenant, id, patch, now);
    forall a | a in u.accounts ensures AccountOk(u, a, u.accounts[a]) {
      assert AccountOk(t, a, t.accounts[a]);
    }
  }

  lemma PatchedOk(t: Tables, dir: Directory, tenant: int, id: nat, patch: Patch, now: int)
    requires PatchTx(t, dir, tenant, id, patch, now).Commit? && id < |t.policies| && PolicyOk(t.policies[id])
    ensures PolicyOk(Patched(t.policies[id], patch))
  {
    hide PeriodBounds, Emit;
  }

  lemma CreateWellFormed(t: Tables, dir: Directory, spec: Policy, now: int)
    requires WellFormed(t) && CreateTx(t, dir, spec, now).Commit?
    ensures WellFormed(CreateTx(t, dir, spec, now).tables)
  {
    hide PeriodBounds, ValidCurrency, ValidThresholds, Extends, Lower;
    var u := CreateTx(t, dir, spec, now).tables;
    CreateExtends(t, dir, spec, now);
    DrawsKept(t, u);
    forall a | a in u.accounts ensures AccountOk(u, a, u.accounts[a]) {
      assert AccountOk(t, a, t.accounts[a]);
    }
  }

  // ---------------------------------------------------------------------------------------
  // Runs
  // ---------------------------------------------------------------------------------------

  lemma ApplyKeepsTerms(t: Tables, id: Str, s: Settlement, status: Status, now: int)
    requires id in t.reservations && ApplyReservation(t, id, s, status, now).Commit?
    ensures var u := ApplyReservation(t, id, s, status, now).tables; u.policies == t.policies && SameAccountTerms(t, u)
  {
    hide ApplyItems, ItemsSettled;
    ApplyItemsKeepTerms(t, 0, id, s, t.reservations[id].identity.currency);
    ApplyItemsEffect(t, 0, id, s, t.reservations[id].identity.currency);
  }

  lemma {:induction false} StaleKeepsTerms(t: Tables, dir: Directory, ids: seq<Str>, before: int, now: int)
    requires MarkStaleTx(t, dir, ids, before, now).Commit?
    ensures var u := MarkStaleTx(t, dir, ids, before, now).tables; u.policies == t.policies && u.accounts == t.accounts
    decreases |ids|
  {
    if ids != [] {
      StaleKeepsTerms(if Stale(t, ids[0], before) then MarkUnknownRow(t, ids[0], STALE_REASON, now) else t, dir,
                      ids[1..], before, now);
    }
  }

  lemma NextKeepsTerms(t: Tables, step: Step)
    requires !step.ReserveStep? && !step.PatchStep? && !step.CreateStep?
    ensures Next(t, step).policies == t.policies && SameAccountTerms(t, Next(t, step))
  {
    hide ApplyReservation, MarkStaleTx, ValidSettlement, ValidResolution, Resolvable, HasUnknownEvent, Lower,
         ValidCurrency;
    if Transact(t, step).Commit? {
      match step
      case ApplyStep(dir, id, now) =>
        var r := t.reservations[id];
        if !r.applied {
          ApplyKeepsTerms(t, id, r.result.value, if r.result.value.outcome == NoCharge then Released else Settled, now);
        }
      case ResolveStep(dir, tenant, id, res, now) =>
        ApplyKeepsTerms(t, id, ResolutionResult(id, res), ResolutionStatus(res.action), now);
      case StaleStep(dir, ids, before, now) => StaleKeepsTerms(t, dir, ids, before, now);
      case _ =>
    }
  }

  lemma NextWellFormed(t: Tables, step: Step)
    requires WellFormed(t)
    ensures WellFormed(Next(t, step))
  {
    hide ReserveTx, PatchTx, CreateTx, WellFormed, Extends, SameAccountTerms;
    if step.ReserveStep? || step.PatchStep? || step.CreateStep? {
      OperatorStep(t, step);
    } else {
      hide Next;
      NextKeepsTerms(t, step);
      NextExtends(t, step);
      NextAddsNoItem(t, step);
      WellFormedKept(t, Next(t, step));
    }
  }

  lemma OperatorStep(t: Tables, step: Step)
    requires WellFormed(t) && (step.ReserveStep? || step.PatchStep? || step.CreateStep?)
    ensures WellFormed(Next(t, step))
  {
    hide ReserveTx, PatchTx, CreateTx, WellFormed;
    if Transact(t, step).Commit? {
      match step
      case ReserveStep(dir, req, now) => ReserveWellFormed(t, dir, req, now);
      case PatchStep(dir, tenant, policy, patch, now) => PatchWellFormed(t, dir, tenant, policy, patch, now);
      case CreateStep(dir, spec, now) => CreateWellFormed(t, dir, spec, now);
    }
  }

  lemma {:induction false} RunWellFormed(steps: seq<Step>)
    ensures WellFormed(Run(EMPTY, steps))
  {
    hide Next, WellFormed;
    if steps == [] {
      EmptyWellFormed();
    } else {
      RunWellFormed(steps[..|steps| - 1]);
      NextWellFormed(Run(EMPTY, steps[..|steps| - 1]), steps[|steps| - 1]);
    }
  }

  lemma EmptyWellFormed()
    ensures WellFormed(EMPTY)
  {
  }
}
