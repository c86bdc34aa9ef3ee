/**
 Conservation of money: what the items of a quota or an account add up to, over every run.
 */
module Conservation {
  import opened Text
  import opened Calendar
  import opened Tables
  import opened Transactions
  import opened History

  datatype Column = Original | Held | Committed | Freed

  function Cell(it: Item, c: Column): int {
    match c
    case Original => it.reserved
    case Held => it.held
    case Committed => it.committed
    case Freed => it.released
  }

  /** Sum of a column over the items that draw on `g`. */
  function Total(items: seq<Item>, g: Target, c: Column): int {
    if items == [] then 0
    else
      var last := items[|items| - 1];
      Total(items[..|items| - 1], g, c) + if last.target == g then Cell(last, c) else 0
  }

  lemma TotalAppend(items: seq<Item>, it: Item, g: Target, c: Column)
    ensures Total(items + [it], g, c) == Total(items, g, c) + if it.target == g then Cell(it, c) else 0
  {
    assert (items + [it])[..|items|] == items;
  }

  lemma {:induction false} TotalUpdate(items: seq<Item>, i: nat, it: Item, g: Target, c: Column)
    requires i < |items| && it.target == items[i].target
    ensures Total(items[i := it], g, c)
            == Total(items, g, c) + if it.target == g then Cell(it, c) - Cell(items[i], c) else 0
  {
    var n := |items| - 1;
    if i == n {
      assert items[i := it][..n] == items[..n];
    } else {
      TotalUpdate(items[..n], i, it, g, c);
      assert items[i := it][..n] == items[..n][i := it];
    }
  }

  lemma {:induction false} TotalAbsent(items: seq<Item>, g: Target, c: Column)
    requires forall i :: 0 <= i < |items| ==> items[i].target != g
    ensures Total(items, g, c) == 0
  {
    if items != [] {
      TotalAbsent(items[..|items| - 1], g, c);
    }
  }

  /** An account's counters are the sums of its items' held, committed and released amounts. */
  ghost predicate Balanced(t: Tables, a: AccountKey)
    requires a in t.accounts
  {
    var g := OnAccount(a);
    && t.accounts[a].reserved == Total(t.items, g, Held)
    && t.accounts[a].committed == Total(t.items, g, Committed)
    && t.accounts[a].released == Total(t.items, g, Freed)
  }

  ghost predicate Books(t: Tables) {
    forall a :: a in t.accounts ==> Balanced(t, a)
  }

  /** `QuotaRepo.Balance`: 0 for an unconfigured scope. */
  function Balance(t: Tables, scope: Str): int {
    if scope in t.quotas then t.quotas[scope].balance else 0
  }

  /** What a quota scope holds plus what its items hold or have spent of it. */
  function Claim(t: Tables, scope: Str): int {
    Balance(t, scope) + Total(t.items, OnQuota(scope), Held) + Total(t.items, OnQuota(scope), Committed)
  }

  // ---------------------------------------------------------------------------------------
  // Settlement conserves
  // ---------------------------------------------------------------------------------------

  lemma ApplyItemTotals(t: Tables, i: nat, s: Settlement, currency: Str, g: Target)
    requires i < |t.items| && ApplyItem(t, i, s, currency).Commit?
    ensures var u, it := ApplyItem(t, i, s, currency).tables, t.items[i];
            && Total(u.items, g, Held) == Total(t.items, g, Held) - (if it.target == g then it.held else 0)
            && Total(u.items, g, Committed)
               == Total(t.items, g, Committed) + (if it.target == g then s.actual - it.committed else 0)
            && Total(u.items, g, Freed)
               == Total(t.items, g, Freed) + (if it.target == g then Refund(it, s.actual) else 0)
  {
    var it := SettleItem(t.items[i], s.actual);
    TotalUpdate(t.items, i, it, g, Held);
    TotalUpdate(t.items, i, it, g, Committed);
    TotalUpdate(t.items, i, it, g, Freed);
    assert ApplyItem(t, i, s, currency).tables.items == t.items[i := it];
  }

  lemma ApplyItemConserves(t: Tables, i: nat, s: Settlement, currency: Str, scope: Str)
    requires i < |t.items| && ApplyItem(t, i, s, currency).Commit?
    ensures var u := ApplyItem(t, i, s, currency).tables;
            (Books(t) ==> Books(u)) && Claim(u, scope) == Claim(t, scope)
  {
    var u := ApplyItem(t, i, s, currency).tables;
    ApplyItemTotals(t, i, s, currency, OnQuota(scope));
    if Books(t) {
      forall a | a in u.accounts ensures Balanced(u, a) {
        ApplyItemTotals(t, i, s, currency, OnAccount(a));
        assert Balanced(t, a);
      }
    }
  }

  lemma {:induction false} ApplyItemsConserve(t: Tables, i: nat, id: Str, s: Settlement, currency: Str, scope: Str)
    requires i <= |t.items| && ApplyItems(t, i, id, s, currency).Commit?
    ensures var u := ApplyItems(t, i, id, s, currency).tables;
            (Books(t) ==> Books(u)) && Claim(u, scope) == Claim(t, scope)
    decreases |t.items| - i
  {
    if i < |t.items| {
      if t.items[i].reservation != id {
        ApplyItemsConserve(t, i + 1, id, s, currency, scope);
      } else {
        ApplyItemConserves(t, i, s, currency, scope);
        ApplyItemsConserve(ApplyItem(t, i, s, currency).tables, i + 1, id, s, currency, scope);
      }
    }
  }

  lemma ApplyReservationConserves(t: Tables, id: Str, s: Settlement, status: Status, now: int, scope: Str)
    requires id in t.reservations && ApplyReservation(t, id, s, status, now).Commit?
    ensures var u := ApplyReservation(t, id, s, status, now).tables;
            (Books(t) ==> Books(u)) && Claim(u, scope) == Claim(t, scope)
  {
    ApplyItemsConserve(t, 0, id, s, t.reservations[id].identity.currency, scope);
    var w := ApplyItems(t, 0, id, s, t.reservations[id].identity.currency).tables;
    var u := ApplyReservation(t, id, s, status, now).tables;
    SameMoney(w, u, scope);
  }

  /** Money depends on quotas, accounts and items only. */
  lemma SameMoney(t: Tables, u: Tables, scope: Str)
    requires u.quotas == t.quotas && u.accounts == t.accounts && u.items == t.items
    ensures (Books(t) ==> Books(u)) && Claim(u, scope) == Claim(t, scope)
  {
    if Books(t) {
      forall a | a in u.accounts ensures Balanced(u, a) {
        assert Balanced(t, a);
      }
    }
  }

  // ---------------------------------------------------------------------------------------
  // Reservation conserves
  // ---------------------------------------------------------------------------------------

  /** Items refer to existing rows. */
  ghost predicate Linked(t: Tables) {
    && (forall i :: 0 <= i < |t.items| ==> ItemLinked(t, t.items[i]))
    && (forall a :: a in t.accounts ==> a.policy < |t.policies|)
  }

  ghost predicate ItemLinked(t: Tables, it: Item) {
    && it.reservation in t.reservations
    && match it.target
       case OnQuota(scope) =>
         scope in t.quotas && Lower(t.quotas[scope].currency) == t.reservations[it.reservation].identity.currency
       case OnAccount(a) => a in t.accounts
  }

  lemma HeldItemTotals(items: seq<Item>, req: Request, target: Target, g: Target)
    ensures var u := items + [HeldItem(req, target)];
            && Total(u, g, Held) == Total(items, g, Held) + (if g == target then req.estimate else 0)
            && Total(u, g, Committed) == Total(items, g, Committed)
            && Total(u, g, Freed) == Total(items, g, Freed)
  {
    var it := HeldItem(req, target);
    TotalAppend(items, it, g, Held);
    TotalAppend(items, it, g, Committed);
    TotalAppend(items, it, g, Freed);
  }

  lemma HoldOnQuotaKeepsBooks(t: Tables, u: Tables, req: Request, scope: Str)
    requires Books(t)
    requires u.accounts == t.accounts && u.items == t.items + [HeldItem(req, OnQuota(scope))]
    ensures Books(u)
  {
    forall a | a in u.accounts ensures Balanced(u, a) {
      assert Balanced(t, a);
      HeldItemTotals(t.items, req, OnQuota(scope), OnAccount(a));
    }
  }

  lemma DebitScopeConserves(t: Tables, req: Request, scope: Str, x: Str)
    requires DebitScope(t, req, scope).Commit?
    ensures var u := DebitScope(t, req, scope).tables;
            (Books(t) ==> Books(u)) && Claim(u, x) == Claim(t, x)
  {
    hide Lower, Books, Total;
    var u := DebitScope(t, req, scope).tables;
    if scope in t.quotas {
      HeldItemTotals(t.items, req, OnQuota(scope), OnQuota(x));
      if Books(t) {
        HoldOnQuotaKeepsBooks(t, u, req, scope);
      }
    }
  }

  lemma {:induction false} DebitScopesConserve(t: Tables, req: Request, scopes: seq<Str>, x: Str)
    requires DebitScopes(t, req, scopes).Commit?
    ensures var u := DebitScopes(t, req, scopes).tables;
            (Books(t) ==> Books(u)) && Claim(u, x) == Claim(t, x)
    decreases |scopes|
  {
    if scopes != [] {
      DebitScopeConserves(t, req, scopes[0], x);
      DebitScopesConserve(DebitScope(t, req, scopes[0]).tables, req, scopes[1..], x);
    }
  }

  lemma OpenAccountKeepsBooks(t: Tables, key: AccountKey, end: int, currency: Str, limit: int)
    requires Books(t) && Linked(t)
    ensures Books(t.(accounts := OpenAccount(t, key, end, currency, limit)))
  {
    var u := t.(accounts := OpenAccount(t, key, end, currency, limit));
    forall a | a in u.accounts ensures Balanced(u, a) {
      if a in t.accounts {
        assert Balanced(t, a);
      } else {
        TotalAbsent(t.items, OnAccount(a), Held);
        TotalAbsent(t.items, OnAccount(a), Committed);
        TotalAbsent(t.items, OnAccount(a), Freed);
      }
    }
  }

  lemma HoldOnAccountKeepsBooks(t: Tables, u: Tables, req: Request, key: AccountKey)
    requires Books(t) && key in t.accounts
    requires u.accounts == t.accounts[key := t.accounts[key].(reserved := t.accounts[key].reserved + req.estimate)]
    requires u.items == t.items + [HeldItem(req, OnAccount(key))]
    ensures Books(u)
  {
    forall a | a in u.accounts ensures Balanced(u, a) {
      assert Balanced(t, a);
      HeldItemTotals(t.items, req, OnAccount(key), OnAccount(a));
    }
  }

  lemma DebitBudgetConserves(t: Tables, dir: Directory, req: Request, policy: nat, now: int, x: Str)
    requires policy < |t.policies| && DebitBudget(t, dir, req, policy, now).Commit?
    requires Books(t) && Linked(t)
    ensures var u := DebitBudget(t, dir, req, policy, now).tables;
            Books(u) && Claim(u, x) == Claim(t, x)
  {
    hide PeriodBounds, Books, Linked, Total;
    var p, u := t.policies[policy], DebitBudget(t, dir, req, policy, now).tables;
    var bounds := PeriodBounds(dir.zones, now, p.period, p.timezone).value;
    var key := AccountKey(policy, bounds.0);
    var mid := t.(accounts := OpenAccount(t, key, bounds.1, req.currency, p.limit));
    OpenAccountKeepsBooks(t, key, bounds.1, req.currency, p.limit);
    HoldOnAccountKeepsBooks(mid, u, req, key);
    HeldItemTotals(t.items, req, OnAccount(key), OnQuota(x));
  }

  // ---------------------------------------------------------------------------------------
  // References stay valid
  // ---------------------------------------------------------------------------------------

  lemma LinkedKept(t: Tables, u: Tables)
    requires Linked(t) && Extends(t, u)
    requires forall i :: |t.items| <= i < |u.items| ==> ItemLinked(u, u.items[i])
    requires forall a :: a in u.accounts && a !in t.accounts ==> a.policy < |u.policies|
    ensures Linked(u)
  {
    forall i | 0 <= i < |u.items| ensures ItemLinked(u, u.items[i]) {
      if i < |t.items| {
        assert ItemLinked(t, t.items[i]);
        assert SameOrigin(t.items[i], u.items[i]);
        assert SameIdentity(t.reservations[t.items[i].reservation], u.reservations[t.items[i].reservation]);
      }
    }
  }

  lemma OnlyHoldsLinked(t: Tables, u: Tables, req: Request, target: Target)
    requires Linked(t) && OnlyHolds(t, u, req) && u.items == t.items + [HeldItem(req, target)]
    requires ItemLinked(u, HeldItem(req, target))
    requires forall a :: a in u.accounts && a !in t.accounts ==> a.policy < |u.policies|
    ensures Linked(u)
  {
    hide ItemLinked;
    assert Extends(t, u);
    LinkedKept(t, u);
  }

  /** The reservation row the new items will point at. */
  ghost predicate HasRow(t: Tables, req: Request) {
    req.id in t.reservations && t.reservations[req.id].identity == req
  }

  lemma DebitScopeLinked(t: Tables, req: Request, scope: Str)
    requires Linked(t) && HasRow(t, req) && DebitScope(t, req, scope).Commit?
    ensures Linked(DebitScope(t, req, scope).tables) && HasRow(DebitScope(t, req, scope).tables, req)
  {
    hide Lower, Linked, OnlyHolds;
    if scope in t.quotas {
      DebitScopeHolds(t, req, scope);
      OnlyHoldsLinked(t, DebitScope(t, req, scope).tables, req, OnQuota(scope));
    }
  }

  lemma {:induction false} DebitScopesLinked(t: Tables, req: Request, scopes: seq<Str>)
    requires Linked(t) && HasRow(t, req) && DebitScopes(t, req, scopes).Commit?
    ensures Linked(DebitScopes(t, req, scopes).tables) && HasRow(DebitScopes(t, req, scopes).tables, req)
    decreases |scopes|
  {
    hide Linked, DebitScope, HasRow;
    if scopes != [] {
      DebitScopeLinked(t, req, scopes[0]);
      DebitScopesLinked(DebitScope(t, req, scopes[0]).tables, req, scopes[1..]);
    }
  }

  lemma DebitBudgetLinked(t: Tables, dir: Directory, req: Request, policy: nat, now: int)
    requires Linked(t) && HasRow(t, req) && policy < |t.policies| && DebitBudget(t, dir, req, policy, now).Commit?
    ensures var u := DebitBudget(t, dir, req, policy, now).tables;
            Linked(u) && HasRow(u, req) && u.policies == t.policies
  {
    hide PeriodBounds, Linked, OnlyHolds;
    var p := t.policies[policy];
    var key := AccountKey(policy, PeriodBounds(dir.zones, now, p.period, p.timezone).value.0);
    DebitBudgetHolds(t, dir, req, policy, now);
    OnlyHoldsLinked(t, DebitBudget(t, dir, req, policy, now).tables, req, OnAccount(key));
  }

  lemma {:induction false} DebitBudgetsConserve(t: Tables, dir: Directory, req: Request, tenant: int, group: int,
                                                now: int, i: nat, x: Str)
    requires i <= |t.policies| && DebitBudgets(t, dir, req, tenant, group, now, i).Commit?
    requires Books(t) && Linked(t) && HasRow(t, req)
    ensures var u := DebitBudgets(t, dir, req, tenant, group, now, i).tables;
            Books(u) && Linked(u) && Claim(u, x) == Claim(t, x)
    decreases |t.policies| - i
  {
    hide DebitBudget, Covers, Books, Linked, Claim, HasRow;
    if i < |t.policies| {
      if Covers(t.policies[i], tenant, group, req) {
        DebitBudgetConserves(t, dir, req, i, now, x);
        DebitBudgetLinked(t, dir, req, i, now);
        DebitBudgetsConserve(DebitBudget(t, dir, req, i, now).tables, dir, req, tenant, group, now, i + 1, x);
      } else {
        DebitBudgetsConserve(t, dir, req, tenant, group, now, i + 1, x);
      }
    }
  }

  lemma ReserveConserves(t: Tables, dir: Directory, request: Request, now: int, x: Str)
    requires Books(t) && Linked(t) && ReserveTx(t, dir, request, now).Commit?
    ensures var u := ReserveTx(t, dir, request, now).tables;
            Books(u) && Linked(u) && Claim(u, x) == Claim(t, x)
  {
    hide DebitScopes, DebitBudgets, Normalized, ValidRequest, LegacyGroup, ScopesOf, GroupId, Books, Linked, Claim;
    var req := Normalized(request);
    if req.id !in t.reservations {
      var tenant := dir.tenants[req.tenant];
      var w := WithRow(t, req.id, NewRow(req, tenant, now));
      assert Linked(w) by { InsertRowLinked(t, req.id, NewRow(req, tenant, now)); }
      SameMoney(t, w, x);
      var v := DebitScopes(w, req, ScopesOf(req)).tables;
      DebitScopesConserve(w, req, ScopesOf(req), x);
      DebitScopesLinked(w, req, ScopesOf(req));
      DebitScopesKeepRow(w, req, ScopesOf(req));
      DebitBudgetsConserve(v, dir, req, tenant, GroupId(dir, tenant, req).value, now, 0, x);
    }
  }

  lemma InsertRowLinked(t: Tables, id: Str, r: Reservation)
    requires Linked(t) && (id in t.reservations ==> SameIdentity(t.reservations[id], r))
    ensures Linked(WithRow(t, id, r))
  {
    var u := WithRow(t, id, r);
    forall i | 0 <= i < |u.items| ensures ItemLinked(u, u.items[i]) {
      assert ItemLinked(t, t.items[i]);
    }
  }

  lemma DebitScopesKeepRow(t: Tables, req: Request, scopes: seq<Str>)
    requires HasRow(t, req) && DebitScopes(t, req, scopes).Commit?
    ensures HasRow(DebitScopes(t, req, scopes).tables, req)
  {
    DebitScopesHold(t, req, scopes);
  }

  // ---------------------------------------------------------------------------------------
  // Every transaction, every run
  // ---------------------------------------------------------------------------------------

  /** Money put into a scope from outside by one step: a top-up that commits. */
  function Gain(t: Tables, step: Step, scope: Str): int {
    if step.TopUpStep? && step.scope == scope && Transact(t, step).Commit? then step.delta else 0
  }

  function Credit(steps: seq<Step>, scope: Str): int {
    if steps == [] then 0
    else
      var before := steps[..|steps| - 1];
      Credit(before, scope) + Gain(Run(EMPTY, before), steps[|steps| - 1], scope)
  }

  lemma TopUpConserves(t: Tables, scope: Str, delta: int, currency: Str, x: Str)
    requires Books(t) && TopUpTx(t, scope, delta, currency).Commit?
    ensures var u := TopUpTx(t, scope, delta, currency).tables;
            Books(u) && Claim(u, x) == Claim(t, x) + if x == scope then delta else 0
  {
    hide Lower, ValidCurrency, Total;
    var u := TopUpTx(t, scope, delta, currency).tables;
    forall a | a in u.accounts ensures Balanced(u, a) {
      assert Balanced(t, a);
    }
  }

  lemma PatchConserves(t: Tables, dir: Directory, tenant: int, id: nat, patch: Patch, now: int, x: Str)
    requires Books(t) && PatchTx(t, dir, tenant, id, patch, now).Commit?
    ensures var u := PatchTx(t, dir, tenant, id, patch, now).tables;
            Books(u) && Claim(u, x) == Claim(t, x)
  {
    hide PeriodBounds, Emit, Total;
    var u := PatchTx(t, dir, tenant, id, patch, now).tables;
    forall a | a in u.accounts ensures Balanced(u, a) {
      assert Balanced(t, a);
    }
  }

  lemma {:induction false} MarkStaleMovesNoMoney(t: Tables, dir: Directory, ids: seq<Str>, before: int, now: int)
    requires MarkStaleTx(t, dir, ids, before, now).Commit?
    ensures var u := MarkStaleTx(t, dir, ids, before, now).tables;
            u.quotas == t.quotas && u.accounts == t.accounts && u.items == t.items
    decreases |ids|
  {
    if ids != [] {
      if Stale(t, ids[0], before) {
        MarkStaleMovesNoMoney(MarkUnknownRow(t, ids[0], STALE_REASON, now), dir, ids[1..], before, now);
      } else {
        MarkStaleMovesNoMoney(t, dir, ids[1..], before, now);
      }
    }
  }

  /** Every transaction keeps the books and changes a scope's claim only by what a top-up puts in. */
  lemma NextConserves(t: Tables, step: Step, x: Str)
    requires Books(t) && Linked(t)
    ensures var u := Next(t, step); Books(u) && Claim(u, x) == Claim(t, x) + Gain(t, step, x)
  {
    hide ReserveTx, ApplyReservation, MarkStaleTx, PatchTx, TopUpTx, ValidSettlement, Books, Claim, Linked,
         ValidResolution, Resolvable, ValidSpec, ScopeOwned, NormalizedSpec, HasUnknownEvent;
    var u := Next(t, step);
    if Transact(t, step).Commit? {
      match step
      case ReserveStep(dir, req, now) => ReserveConserves(t, dir, req, now, x);
      case ApplyStep(dir, id, now) =>
        var r := t.reservations[id];
        if !r.applied {
          ApplyReservationConserves(t, id, r.result.value,
                                    if r.result.value.outcome == NoCharge then Released else Settled, now, x);
        }
      case ResolveStep(dir, tenant, id, res, now) =>
        var s, status := ResolutionResult(id, res), ResolutionStatus(res.action);
        ApplyReservationConserves(t, id, s, status, now, x);
        SameMoney(ApplyReservation(t, id, s, status, now).tables, u, x);
      case PatchStep(dir, tenant, policy, patch, now) => PatchConserves(t, dir, tenant, policy, patch, now, x);
      case TopUpStep(scope, delta, currency) => TopUpConserves(t, scope, delta, currency, x);
      case StaleStep(dir, ids, before, now) =>
        MarkStaleMovesNoMoney(t, dir, ids, before, now);
        SameMoney(t, u, x);
      case _ => SameMoney(t, u, x);
    }
  }

  /** Steps other than a reservation add no item and no account. */
  lemma NextAddsNoItem(t: Tables, step: Step)
    requires !step.ReserveStep?
    ensures |Next(t, step).items| == |t.items| && Next(t, step).accounts.Keys == t.accounts.Keys
  {
    hide ApplyReservation, MarkStaleTx, ValidSettlement, ValidResolution, Resolvable, ValidSpec, ScopeOwned,
         NormalizedSpec, HasUnknownEvent, PeriodBounds, Emit, Lower, ValidCurrency;
    if Transact(t, step).Commit? {
      match step
      case ApplyStep(dir, id, now) =>
        var r := t.reservations[id];
        if !r.applied {
          ApplyReservationEffect(t, id, r.result.value,
                                 if r.result.value.outcome == NoCharge then Released else Settled, now);
        }
      case ResolveStep(dir, tenant, id, res, now) =>
        ApplyReservationEffect(t, id, ResolutionResult(id, res), ResolutionStatus(res.action), now);
      case StaleStep(dir, ids, before, now) => MarkStaleMovesNoMoney(t, dir, ids, before, now);
      case _ =>
    }
  }

  lemma NextLinked(t: Tables, step: Step)
    requires Books(t) && Linked(t)
    ensures Linked(Next(t, step))
  {
    hide Next, Books, Linked, Extends;
    if step.ReserveStep? {
      NextReserveLinked(t, step);
    } else {
      NextAddsNoItem(t, step);
      NextExtends(t, step);
      LinkedKept(t, Next(t, step));
    }
  }

  lemma NextReserveLinked(t: Tables, step: Step)
    requires Books(t) && Linked(t) && step.ReserveStep?
    ensures Linked(Next(t, step))
  {
    hide ReserveTx, Books, Linked;
    if ReserveTx(t, step.dir, step.req, step.now).Commit? {
      ReserveConserves(t, step.dir, step.req, step.now, []);
    }
  }

  /** Conservation over every interleaving: each account's counters are its items' sums, and each
      quota's balance plus what its items hold and have spent is what was put in. */
  lemma {:induction false} RunConserves(steps: seq<Step>, scope: Str)
    ensures var t := Run(EMPTY, steps);
            Books(t) && Linked(t) && Claim(t, scope) == Credit(steps, scope)
  {
    hide Next, Books, Linked, Claim, Gain;
    if steps == [] {
      EmptyConserves(scope);
    } else {
      var before, last := steps[..|steps| - 1], steps[|steps| - 1];
      RunConserves(before, scope);
      NextConserves(Run(EMPTY, before), last, scope);
      NextLinked(Run(EMPTY, before), last);
    }
  }

  lemma EmptyConserves(scope: Str)
    ensures Books(EMPTY) && Linked(EMPTY) && Claim(EMPTY, scope) == 0
  {
  }
}
