/**
 The spend bound of an enforcing budget: what is reserved and committed never exceeds the highest
 limit the account has had by more than its items overshot their own reservations.
 */
module SpendBound {
  import opened Text
  import opened Calendar
  import opened Tables
  import opened Transactions
  import opened History
  import opened Conservation
  import opened Lifecycle

  /** By how much the items on `g` came to more than was reserved for them. */
  function Overshoot(items: seq<Item>, g: Target): int {
    Total(items, g, Held) + Total(items, g, Committed) + Total(items, g, Freed) - Total(items, g, Original)
  }

  /** No item accounts for less than was reserved for it. */
  ghost predicate Covered(items: seq<Item>) {
    forall i :: 0 <= i < |items| ==> items[i].reserved <= items[i].held + items[i].committed + items[i].released
  }

  lemma {:induction false} OvershootNonNegative(items: seq<Item>, g: Target)
    requires Covered(items)
    ensures Overshoot(items, g) >= 0
  {
    if items != [] {
      OvershootNonNegative(items[..|items| - 1], g);
    }
  }

  lemma InvCovers(t: Tables)
    requires Inv(t)
    ensures Covered(t.items)
  {
    forall i | 0 <= i < |t.items|
      ensures t.items[i].reserved <= t.items[i].held + t.items[i].committed + t.items[i].released {
      var id := t.items[i].reservation;
      assert RowOk(id, t.reservations[id]) && ItemOk(t.items[i], t.reservations[id]);
    }
  }

  /** What was ever reserved on `g` and not released. */
  function Drawn(items: seq<Item>, g: Target): int {
    Total(items, g, Original) - Total(items, g, Freed)
  }

  // ---------------------------------------------------------------------------------------
  // Steps that add no item
  // ---------------------------------------------------------------------------------------

  /** Items keep their origin, and their released and committed amounts do not shrink. */
  ghost predicate OnlyGrows(before: seq<Item>, after: seq<Item>) {
    |after| == |before| &&
    forall i :: 0 <= i < |before| ==>
      && SameOrigin(before[i], after[i])
      && before[i].released <= after[i].released && before[i].committed <= after[i].committed
  }

  lemma {:induction false} OnlyGrowsTotals(before: seq<Item>, after: seq<Item>, g: Target)
    requires OnlyGrows(before, after)
    ensures Total(after, g, Original) == Total(before, g, Original)
    ensures Total(before, g, Freed) <= Total(after, g, Freed)
    ensures Total(before, g, Committed) <= Total(after, g, Committed)
  {
    if before != [] {
      var n := |before| - 1;
      assert OnlyGrows(before[..n], after[..n]);
      OnlyGrowsTotals(before[..n], after[..n], g);
      assert SameOrigin(before[n], after[n]);
    }
  }

  lemma SettledOnlyGrows(t: Tables, items: seq<Item>, id: Str, actual: int)
    requires ItemsOk(t) && id in t.reservations && !Final(t.reservations[id].status) && actual >= 0
    requires ItemsSettled(t.items, items, 0, id, actual)
    ensures OnlyGrows(t.items, items)
  {
    forall i | 0 <= i < |t.items|
      ensures SameOrigin(t.items[i], items[i]) && t.items[i].released <= items[i].released
              && t.items[i].committed <= items[i].committed {
      assert ItemOk(t.items[i], t.reservations[t.items[i].reservation]);
    }
  }

  lemma NextOnlyGrows(t: Tables, step: Step)
    requires Inv(t) && !step.ReserveStep?
    ensures OnlyGrows(t.items, Next(t, step).items)
  {
    hide ApplyReservation, MarkStaleTx, PatchTx, TopUpTx, CreateTx, MarkUnknownRow, Blank, Books, Linked, ReceiptsOk,
         ItemsOk, RowsOk, Extends, ItemsSettled;
    if Transact(t, step).Commit? {
      match step
      case ApplyStep(dir, id, now) =>
        RowIsOk(t, id);
        var r := t.reservations[id];
        if !r.applied {
          var status := if r.result.value.outcome == NoCharge then Released else Settled;
          ApplyReservationEffect(t, id, r.result.value, status, now);
          SettledOnlyGrows(t, Next(t, step).items, id, r.result.value.actual);
        }
      case ResolveStep(dir, tenant, id, res, now) =>
        RowIsOk(t, id);
        ApplyReservationEffect(t, id, ResolutionResult(id, res), ResolutionStatus(res.action), now);
        SettledOnlyGrows(t, Next(t, step).items, id, ResolutionResult(id, res).actual);
      case StaleStep(dir, ids, before, now) => MarkStaleMovesNoMoney(t, dir, ids, before, now);
      case UnknownStep(dir, id, reason, now) => UnknownKeepsItems(t, id, reason, now);
      case CreateStep(dir, spec, now) => CreateKeepsRows(t, dir, spec, now);
      case PatchStep(dir, tenant, policy, patch, now) => PatchKeepsRows(t, dir, tenant, policy, patch, now);
      case TopUpStep(scope, delta, currency) => TopUpKeepsRows(t, scope, delta, currency);
      case _ =>
    }
  }

  lemma UnknownKeepsItems(t: Tables, id: Str, reason: Str, now: int)
    requires id in t.reservations
    ensures MarkUnknownRow(t, id, reason, now).items == t.items
  {
  }

  /** What has been committed to an account is never taken back. */
  lemma CommittedNeverDecreases(t: Tables, step: Step, a: AccountKey)
    requires Inv(t) && a in t.accounts
    ensures var u := Next(t, step); a in u.accounts && t.accounts[a].committed <= u.accounts[a].committed
  {
    hide Next, Linked, RowsOk, ItemsOk, ReceiptsOk, OnlyGrows;
    var u := Next(t, step);
    NextExtends(t, step);
    NextConserves(t, step, []);
    assert Balanced(t, a) && Balanced(u, a);
    if step.ReserveStep? {
      ReserveKeepsCommitted(t, step, a);
    } else {
      NextOnlyGrows(t, step);
      OnlyGrowsTotals(t.items, u.items, OnAccount(a));
    }
  }

  lemma {:induction false} HeldItemsAddNothing(items: seq<Item>, more: seq<Item>, g: Target)
    requires items <= more
    requires forall j :: |items| <= j < |more| ==> more[j].committed == 0 && more[j].released == 0
    ensures Total(more, g, Committed) == Total(items, g, Committed) && Total(more, g, Freed) == Total(items, g, Freed)
  {
    if |items| == |more| {
      assert items == more;
    } else {
      HeldItemsAddNothing(items, more[..|more| - 1], g);
    }
  }

  lemma ReserveKeepsCommitted(t: Tables, step: Step, a: AccountKey)
    requires step.ReserveStep?
    ensures Total(Next(t, step).items, OnAccount(a), Committed) == Total(t.items, OnAccount(a), Committed)
  {
    hide ReserveTx, Normalized, ValidRequest, Total;
    if ReserveTx(t, step.dir, step.req, step.now).Commit? {
      if Normalized(step.req).id in t.reservations {
        RepeatedReserve(t, step.dir, step.req, step.now);
      } else {
        ReserveEffect(t, step.dir, step.req, step.now);
        HeldItemsAddNothing(t.items, Next(t, step).items, OnAccount(a));
      }
    }
  }

  // ---------------------------------------------------------------------------------------
  // Reservation
  // ---------------------------------------------------------------------------------------

  lemma HeldItemDraws(items: seq<Item>, req: Request, target: Target, g: Target)
    ensures Drawn(items + [HeldItem(req, target)], g) == Drawn(items, g) + if g == target then req.estimate else 0
  {
    TotalAppend(items, HeldItem(req, target), g, Original);
    TotalAppend(items, HeldItem(req, target), g, Freed);
  }

  lemma {:induction false} DebitScopesDrawNothing(t: Tables, req: Request, scopes: seq<Str>, a: AccountKey)
    requires DebitScopes(t, req, scopes).Commit? && Covered(t.items)
    ensures var u := DebitScopes(t, req, scopes).tables;
            Drawn(u.items, OnAccount(a)) == Drawn(t.items, OnAccount(a)) && Covered(u.items) && u.accounts == t.accounts
    decreases |scopes|
  {
    hide Lower, Drawn;
    if scopes != [] {
      if scopes[0] in t.quotas {
        HeldItemDraws(t.items, req, OnQuota(scopes[0]), OnAccount(a));
      }
      DebitScopesDrawNothing(DebitScope(t, req, scopes[0]).tables, req, scopes[1..], a);
    }
  }

  lemma DebitBudgetKeepsLimit(t: Tables, dir: Directory, req: Request, policy: nat, now: int, a: AccountKey)
    requires policy < |t.policies| && DebitBudget(t, dir, req, policy, now).Commit? && a in t.accounts
    ensures var u := DebitBudget(t, dir, req, policy, now).tables;
            a in u.accounts && u.accounts[a].limit == t.accounts[a].limit
  {
    hide PeriodBounds;
  }

  lemma {:induction false} DebitBudgetsKeepLimit(t: Tables, dir: Directory, req: Request, tenant: int, group: int,
                                                 now: int, i: nat, a: AccountKey)
    requires i <= |t.policies| && DebitBudgets(t, dir, req, tenant, group, now, i).Commit? && a in t.accounts
    ensures var u := DebitBudgets(t, dir, req, tenant, group, now, i).tables;
            a in u.accounts && u.accounts[a].limit == t.accounts[a].limit
    decreases |t.policies| - i
  {
    hide DebitBudget, Covers, QuotasKept, AccountsKept;
    if i < |t.policies| {
      if Covers(t.policies[i], tenant, group, req) {
        DebitBudgetKeepsLimit(t, dir, req, i, now, a);
        DebitBudgetHolds(t, dir, req, i, now);
        DebitBudgetsKeepLimit(DebitBudget(t, dir, req, i, now).tables, dir, req, tenant, group, now, i + 1, a);
      } else {
        DebitBudgetsKeepLimit(t, dir, req, tenant, group, now, i + 1, a);
      }
    }
  }

  /** One budget debit keeps the bound: an enforcing account admits only what still fits its limit. */
  lemma DebitBudgetBound(t: Tables, dir: Directory, req: Request, policy: nat, now: int, a: AccountKey, top: int)
    requires policy < |t.policies| && DebitBudget(t, dir, req, policy, now).Commit?
    requires Books(t) && Linked(t) && Covered(t.items) && Drawn(t.items, OnAccount(a)) <= top
    requires a.policy == policy ==> t.policies[policy].mode == Enforce
    requires var u := DebitBudget(t, dir, req, policy, now).tables; a in u.accounts ==> u.accounts[a].limit <= top
    ensures var u := DebitBudget(t, dir, req, policy, now).tables;
            Drawn(u.items, OnAccount(a)) <= top && Covered(u.items)
  {
    hide PeriodBounds, Linked, Total;
    var p, u := t.policies[policy], DebitBudget(t, dir, req, policy, now).tables;
    var bounds := PeriodBounds(dir.zones, now, p.period, p.timezone).value;
    var key := AccountKey(policy, bounds.0);
    HeldItemDraws(t.items, req, OnAccount(key), OnAccount(a));
    if key == a {
      OpenAccountKeepsBooks(t, key, bounds.1, req.currency, p.limit);
      var mid := t.(accounts := OpenAccount(t, key, bounds.1, req.currency, p.limit));
      assert Balanced(mid, a);
      OvershootNonNegative(t.items, OnAccount(a));
    }
  }

  lemma {:induction false} DebitBudgetsBound(t: Tables, dir: Directory, req: Request, tenant: int, group: int, now: int,
                                             i: nat, a: AccountKey, top: int)
    requires i <= |t.policies| && DebitBudgets(t, dir, req, tenant, group, now, i).Commit?
    requires Books(t) && Linked(t) && HasRow(t, req) && Covered(t.items) && Drawn(t.items, OnAccount(a)) <= top
    requires a.policy < |t.policies| ==> t.policies[a.policy].mode == Enforce
    requires var u := DebitBudgets(t, dir, req, tenant, group, now, i).tables;
             a in u.accounts ==> u.accounts[a].limit <= top
    ensures Drawn(DebitBudgets(t, dir, req, tenant, group, now, i).tables.items, OnAccount(a)) <= top
    decreases |t.policies| - i
  {
    hide DebitBudget, Covers, Books, Linked, HasRow, Drawn, Covered;
    if i < |t.policies| {
      if Covers(t.policies[i], tenant, group, req) {
        var w := DebitBudget(t, dir, req, i, now).tables;
        DebitBudgetConserves(t, dir, req, i, now, []);
        DebitBudgetLinked(t, dir, req, i, now);
        if a in w.accounts {
          DebitBudgetsKeepLimit(w, dir, req, tenant, group, now, i + 1, a);
        }
        DebitBudgetBound(t, dir, req, i, now, a, top);
        DebitBudgetsBound(w, dir, req, tenant, group, now, i + 1, a, top);
      } else {
        DebitBudgetsBound(t, dir, req, tenant, group, now, i + 1, a, top);
      }
    }
  }

  lemma ReserveBound(t: Tables, dir: Directory, request: Request, now: int, a: AccountKey, top: int)
    requires Inv(t) && ReserveTx(t, dir, request, now).Commit? && Drawn(t.items, OnAccount(a)) <= top
    requires a.policy < |t.policies| ==> t.policies[a.policy].mode == Enforce
    requires var u := ReserveTx(t, dir, request, now).tables; a in u.accounts ==> u.accounts[a].limit <= top
    ensures Drawn(ReserveTx(t, dir, request, now).tables.items, OnAccount(a)) <= top
  {
    hide DebitScopes, DebitBudgets, Normalized, ValidRequest, LegacyGroup, ScopesOf, GroupId, Books, Linked, RowsOk,
         ItemsOk, ReceiptsOk, Drawn, Covered, QuotasKept, AccountsKept;
    var req := Normalized(request);
    if req.id !in t.reservations {
      var tenant := dir.tenants[req.tenant];
      var w := WithRow(t, req.id, NewRow(req, tenant, now));
      InvCovers(t);
      InsertRowLinked(t, req.id, NewRow(req, tenant, now));
      SameMoney(t, w, []);
      var v := DebitScopes(w, req, ScopesOf(req)).tables;
      DebitScopesConserve(w, req, ScopesOf(req), []);
      DebitScopesLinked(w, req, ScopesOf(req));
      DebitScopesHold(w, req, ScopesOf(req));
      DebitScopesDrawNothing(w, req, ScopesOf(req), a);
      DebitBudgetsBound(v, dir, req, tenant, GroupId(dir, tenant, req).value, now, 0, a, top);
    }
  }

  // ---------------------------------------------------------------------------------------
  // Every run
  // ---------------------------------------------------------------------------------------

  lemma NextBound(t: Tables, step: Step, a: AccountKey, top: int)
    requires Inv(t) && Drawn(t.items, OnAccount(a)) <= top
    requires a.policy < |t.policies| ==> t.policies[a.policy].mode == Enforce
    requires var u := Next(t, step); a in u.accounts ==> u.accounts[a].limit <= top
    ensures Drawn(Next(t, step).items, OnAccount(a)) <= top
  {
    hide ReserveTx, ApplyReservation, MarkStaleTx, PatchTx, TopUpTx, CreateTx, ResolveTx, Inv, Total, OnlyGrows;
    if step.ReserveStep? {
      if Transact(t, step).Commit? {
        ReserveBound(t, step.dir, step.req, step.now, a, top);
      }
    } else {
      NextOnlyGrows(t, step);
      OnlyGrowsTotals(t.items, Next(t, step).items, OnAccount(a));
    }
  }

  /** The account's limit never exceeds `top` along the run. */
  ghost predicate LimitWithin(steps: seq<Step>, a: AccountKey, top: int) {
    forall n :: 0 <= n <= |steps| ==>
      a in Run(EMPTY, steps[..n]).accounts ==> Run(EMPTY, steps[..n]).accounts[a].limit <= top
  }

  lemma LimitWithinPrefix(steps: seq<Step>, a: AccountKey, top: int)
    requires steps != [] && LimitWithin(steps, a, top)
    ensures LimitWithin(steps[..|steps| - 1], a, top)
    ensures a in Run(EMPTY, steps).accounts ==> Run(EMPTY, steps).accounts[a].limit <= top
  {
    hide Run;
    var before := steps[..|steps| - 1];
    forall n | 0 <= n <= |before|
      ensures a in Run(EMPTY, before[..n]).accounts ==> Run(EMPTY, before[..n]).accounts[a].limit <= top {
      assert before[..n] == steps[..n];
    }
    assert steps[..|steps|] == steps;
  }

  lemma {:induction false} RunBound(steps: seq<Step>, a: AccountKey, top: int)
    requires top >= 0 && LimitWithin(steps, a, top)
    requires var t := Run(EMPTY, steps); a.policy < |t.policies| ==> t.policies[a.policy].mode == Enforce
    ensures Drawn(Run(EMPTY, steps).items, OnAccount(a)) <= top
  {
    hide Next, Inv, LimitWithin, Extends;
    if steps != [] {
      var before, last := steps[..|steps| - 1], steps[|steps| - 1];
      var t := Run(EMPTY, before);
      LimitWithinPrefix(steps, a, top);
      ModeKept(t, last, a);
      RunBound(before, a, top);
      EmptyInv();
      RunKeepsInv(EMPTY, before);
      NextBound(t, last, a, top);
    }
  }

  lemma ModeKept(t: Tables, step: Step, a: AccountKey)
    ensures a.policy < |t.policies| ==>
              a.policy < |Next(t, step).policies| && t.policies[a.policy].mode == Next(t, step).policies[a.policy].mode
  {
    hide Next;
    NextExtends(t, step);
    if a.policy < |t.policies| {
      assert SameTerms(t.policies[a.policy], Next(t, step).policies[a.policy]);
    }
  }

  /** Spend bound over every run: if the limit of an enforcing account never exceeds `top`, what it has
      reserved and committed exceeds `top` by no more than its items overshot their reservations. */
  lemma SpendWithinLimit(steps: seq<Step>, a: AccountKey, top: int)
    requires top >= 0 && LimitWithin(steps, a, top)
    requires var t := Run(EMPTY, steps);
             a in t.accounts && a.policy < |t.policies| && t.policies[a.policy].mode == Enforce
    ensures var t := Run(EMPTY, steps);
            t.accounts[a].reserved + t.accounts[a].committed <= top + Overshoot(t.items, OnAccount(a))
  {
    hide Run, Total, Linked;
    RunBound(steps, a, top);
    RunConserves(steps, []);
    assert Balanced(Run(EMPTY, steps), a);
  }
}
