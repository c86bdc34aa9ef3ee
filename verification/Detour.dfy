/**
 Releasing at risk and charging later, with anything in between: two runs of the same transactions, one
 after a direct settlement and one after a risk release, stay twins as long as each transaction is
 decided alike in both, so the late charge still comes to the same funds.
 */
module Detour {
  import opened Text
  import opened Calendar
  import Scope
  import opened Tables
  import opened Transactions
  import opened History
  import opened Conservation
  import opened Lifecycle
  import opened Outcomes
  import opened Admission
  import opened Draws
  import opened Policies

  // ---------------------------------------------------------------------------------------
  // Twins
  // ---------------------------------------------------------------------------------------

  /** `u` settled the reservation where `w` released it at risk; every other row is the same. */
  ghost predicate RowsAlike(u: Tables, w: Tables, id: Str) {
    && u.reservations.Keys == w.reservations.Keys
    && (forall x :: x in u.reservations && x != id ==> u.reservations[x] == w.reservations[x])
    && id in u.reservations && SameIdentity(u.reservations[id], w.reservations[id])
    && Final(u.reservations[id].status) && u.reservations[id].applied
    && w.reservations[id].status == ReleasedUnknown && w.reservations[id].result.None? && !w.reservations[id].applied
  }

  predicate ItemAlike(a: Item, b: Item, id: Str, actual: int) {
    if b.reservation == id
    then a == b.(held := 0, committed := actual, released := a.released) && b.held == 0 && b.committed == 0
    else a == b
  }

  ghost predicate ItemsAlike(us: seq<Item>, ws: seq<Item>, id: Str, actual: int) {
    |us| == |ws| && forall i :: 0 <= i < |us| ==> ItemAlike(us[i], ws[i], id, actual)
  }

  ghost predicate AccountsAlike(u: Tables, w: Tables) {
    u.accounts.Keys == w.accounts.Keys && forall a :: a in w.accounts ==> SameTermsOf(w.accounts[a], u.accounts[a])
  }

  ghost predicate QuotasAlike(u: Tables, w: Tables) {
    && u.quotas.Keys == w.quotas.Keys
    && forall s :: s in u.quotas ==> u.quotas[s].currency == w.quotas[s].currency
  }

  ghost predicate ClaimsAlike(u: Tables, w: Tables) {
    forall s :: Claim(u, s) == Claim(w, s)
  }

  ghost predicate Twins(u: Tables, w: Tables, id: Str, actual: int) {
    && Inv(u) && Inv(w) && u.policies == w.policies
    && RowsAlike(u, w, id) && ItemsAlike(u.items, w.items, id, actual)
    && AccountsAlike(u, w) && QuotasAlike(u, w) && ClaimsAlike(u, w)
  }

  /** The step names the reservation but has no effect on it in either twin. */
  predicate Idle(step: Step, id: Str) {
    (step.DispatchStep? || step.ApplyStep? || step.UnknownStep?) && step.id == id
  }

  /** The step would itself charge the reservation late. */
  predicate Charges(step: Step, id: Str) {
    (step.RecordStep? && step.result.id == id) || (step.ResolveStep? && step.id == id)
  }

  /** The step commits in both or in neither. */
  predicate DecidedAlike(u: Tables, w: Tables, step: Step) {
    Transact(u, step).Commit? <==> Transact(w, step).Commit?
  }

  lemma IdleStep(u: Tables, w: Tables, id: Str, step: Step)
    requires RowsAlike(u, w, id) && Idle(step, id)
    ensures Next(u, step) == u && Next(w, step) == w
  {
    hide ApplyReservation;
  }

  // ---------------------------------------------------------------------------------------
  // Rows
  // ---------------------------------------------------------------------------------------

  lemma SetRowAlike(u: Tables, w: Tables, u': Tables, w': Tables, id: Str, x: Str, r: Reservation)
    requires RowsAlike(u, w, id) && x != id
    requires u'.reservations == u.reservations[x := r] && w'.reservations == w.reservations[x := r]
    ensures RowsAlike(u', w', id)
  {
  }

  lemma SameRowsAlike(u: Tables, w: Tables, u': Tables, w': Tables, id: Str)
    requires RowsAlike(u, w, id) && u'.reservations == u.reservations && w'.reservations == w.reservations
    ensures RowsAlike(u', w', id)
  {
  }

  lemma {:induction false} StaleRowsAlike(u: Tables, w: Tables, dir: Directory, ids: seq<Str>, before: int, now: int,
                                          id: Str)
    requires RowsAlike(u, w, id)
    requires MarkStaleTx(u, dir, ids, before, now).Commit? && MarkStaleTx(w, dir, ids, before, now).Commit?
    ensures RowsAlike(MarkStaleTx(u, dir, ids, before, now).tables, MarkStaleTx(w, dir, ids, before, now).tables, id)
    decreases |ids|
  {
    hide HasUnknownEvent;
    if ids != [] {
      var x := ids[0];
      if Stale(u, x, before) {
        var u', w' := MarkUnknownRow(u, x, STALE_REASON, now), MarkUnknownRow(w, x, STALE_REASON, now);
        SetRowAlike(u, w, u', w', id, x, u'.reservations[x]);
        StaleRowsAlike(u', w', dir, ids[1..], before, now, id);
      } else {
        StaleRowsAlike(u, w, dir, ids[1..], before, now, id);
      }
    }
  }

  lemma ReserveRows(t: Tables, dir: Directory, request: Request, now: int)
    requires ReserveTx(t, dir, request, now).Commit?
    ensures var req, u := Normalized(request), ReserveTx(t, dir, request, now).tables;
            && u.policies == t.policies && req.tenant in dir.tenants
            && if req.id in t.reservations then u == t
               else u.reservations == t.reservations[req.id := NewRow(req, dir.tenants[req.tenant], now)]
  {
    hide ReserveTx, Normalized, ValidRequest, QuotasKept, AccountsKept;
    if Normalized(request).id in t.reservations {
      RepeatedReserve(t, dir, request, now);
      KnownTenant(t, dir, request, now);
    } else {
      ReserveEffect(t, dir, request, now);
    }
  }

  lemma KnownTenant(t: Tables, dir: Directory, request: Request, now: int)
    requires ReserveTx(t, dir, request, now).Commit?
    ensures Normalized(request).tenant in dir.tenants
  {
    hide DebitScopes, DebitBudgets, Normalized, ValidRequest, LegacyGroup, ScopesOf, GroupId;
  }

  lemma SettleRowsAlike(u: Tables, w: Tables, id: Str, x: Str, s: Settlement, status: Status, now: int)
    requires RowsAlike(u, w, id) && x != id && x in u.reservations
    requires ApplyReservation(u, x, s, status, now).Commit? && ApplyReservation(w, x, s, status, now).Commit?
    ensures RowsAlike(ApplyReservation(u, x, s, status, now).tables, ApplyReservation(w, x, s, status, now).tables, id)
  {
    hide ApplyReservation, Extends, ItemsSettled, RowsAlike;
    SameRow(u, w, id, x);
    ApplyReservationEffect(u, x, s, status, now);
    ApplyReservationEffect(w, x, s, status, now);
    SetRowAlike(u, w, ApplyReservation(u, x, s, status, now).tables, ApplyReservation(w, x, s, status, now).tables, id,
                x, SettledRow(u.reservations[x], s, status, now));
  }

  lemma SameRow(u: Tables, w: Tables, id: Str, x: Str)
    requires RowsAlike(u, w, id) && x != id
    ensures x in u.reservations <==> x in w.reservations
    ensures x in u.reservations ==> u.reservations[x] == w.reservations[x]
  {
    assert x in u.reservations.Keys <==> x in w.reservations.Keys;
  }

  lemma SameIds(u: Tables, w: Tables, id: Str, x: Str)
    requires RowsAlike(u, w, id)
    ensures x in u.reservations <==> x in w.reservations
    ensures id in u.reservations
  {
    assert x in u.reservations.Keys <==> x in w.reservations.Keys;
  }

  /** The row that a committed apply or resolution settles, and how. */
  lemma ApplyOf(t: Tables, step: Step, id: Str)
    requires step.ApplyStep? && step.id == id && ApplyTx(t, step.dir, id, step.now).Commit?
    ensures id in t.reservations
    ensures t.reservations[id].applied ==> Next(t, step) == t
    ensures !t.reservations[id].applied ==>
              && t.reservations[id].result.Some?
              && var s := t.reservations[id].result.value;
                 var tx := ApplyReservation(t, id, s, if s.outcome == NoCharge then Released else Settled, step.now);
                 tx.Commit? && Next(t, step) == tx.tables
  {
    hide ApplyReservation;
  }

  lemma ResolveOf(t: Tables, step: Step)
    requires step.ResolveStep? && Transact(t, step).Commit?
    ensures step.id in t.reservations && ValidResolution(step.res)
    ensures var s, status := ResolutionResult(step.id, step.res), ResolutionStatus(step.res.action);
            var tx := ApplyReservation(t, step.id, s, status, step.now);
            tx.Commit? && Next(t, step) == tx.tables.(events := Next(t, step).events)
  {
    hide ApplyReservation, Blank;
  }

  lemma RowStepAlike(u: Tables, w: Tables, id: Str, step: Step)
    requires RowsAlike(u, w, id) && !Idle(step, id) && !Charges(step, id)
    requires step.DispatchStep? || step.RecordStep? || step.UnknownStep?
    requires Transact(u, step).Commit? && Transact(w, step).Commit?
    ensures RowsAlike(Next(u, step), Next(w, step), id)
  {
    hide HasUnknownEvent, RowsAlike, ValidSettlement;
    var x := if step.RecordStep? then step.result.id else step.id;
    SameRow(u, w, id, x);
    SetOrSame(u, w, Next(u, step), Next(w, step), id, x);
  }

  lemma NextRowsAlike(u: Tables, w: Tables, id: Str, step: Step)
    requires RowsAlike(u, w, id) && !Idle(step, id) && !Charges(step, id)
    requires Transact(u, step).Commit? && Transact(w, step).Commit?
    ensures RowsAlike(Next(u, step), Next(w, step), id)
  {
    hide ReserveTx, ApplyReservation, ApplyTx, ResolveTx, MarkStaleTx, PatchTx, CreateTx, TopUpTx, MarkDispatchedTx,
         RecordTx, MarkUnknownTx, RowsAlike, ValidSettlement, Normalized, ValidResolution, Resolvable;
    var u', w' := Next(u, step), Next(w, step);
    match step
    case ReserveStep(dir, request, now) =>
      var req := Normalized(request);
      ReserveRows(u, dir, request, now);
      ReserveRows(w, dir, request, now);
      SameIds(u, w, id, req.id);
      if req.id in u.reservations {
        SameRowsAlike(u, w, u', w', id);
      } else {
        SetRowAlike(u, w, u', w', id, req.id, NewRow(req, dir.tenants[req.tenant], now));
      }
    case DispatchStep(_, _) => RowStepAlike(u, w, id, step);
    case RecordStep(_, _) => RowStepAlike(u, w, id, step);
    case UnknownStep(_, _, _, _) => RowStepAlike(u, w, id, step);
    case ApplyStep(dir, x, now) =>
      SameRow(u, w, id, x);
      ApplyOf(u, step, x);
      ApplyOf(w, step, x);
      if u.reservations[x].applied {
        SameRowsAlike(u, w, u', w', id);
      } else {
        var s := u.reservations[x].result.value;
        SettleRowsAlike(u, w, id, x, s, if s.outcome == NoCharge then Released else Settled, now);
      }
    case ResolveStep(dir, tenant, x, res, now) =>
      SameRow(u, w, id, x);
      ResolveOf(u, step);
      ResolveOf(w, step);
      var s, status := ResolutionResult(x, res), ResolutionStatus(res.action);
      SettleRowsAlike(u, w, id, x, s, status, now);
      SameRowsAlike(ApplyReservation(u, x, s, status, now).tables, ApplyReservation(w, x, s, status, now).tables, u',
                    w', id);
    case StaleStep(dir, ids, before, now) => StaleRowsAlike(u, w, dir, ids, before, now, id);
    case PatchStep(dir, tenant, policy, patch, now) =>
      PatchTouchesOnePeriod(u, dir, tenant, policy, patch, now);
      PatchTouchesOnePeriod(w, dir, tenant, policy, patch, now);
      SameRowsAlike(u, w, u', w', id);
    case _ =>
      OperatorKeepsRows(u, step);
      OperatorKeepsRows(w, step);
      SameRowsAlike(u, w, u', w', id);
  }

  lemma SetOrSame(u: Tables, w: Tables, u': Tables, w': Tables, id: Str, x: Str)
    requires RowsAlike(u, w, id) && x != id
    requires || (u'.reservations == u.reservations && w'.reservations == w.reservations)
             || (x in u'.reservations && x in w'.reservations && u'.reservations[x] == w'.reservations[x]
                 && u'.reservations == u.reservations[x := u'.reservations[x]]
                 && w'.reservations == w.reservations[x := u'.reservations[x]])
    ensures RowsAlike(u', w', id)
  {
    hide RowsAlike;
    if u'.reservations == u.reservations && w'.reservations == w.reservations {
      SameRowsAlike(u, w, u', w', id);
    } else {
      SetRowAlike(u, w, u', w', id, x, u'.reservations[x]);
    }
  }

  lemma OperatorKeepsRows(t: Tables, step: Step)
    requires step.CreateStep? || step.TopUpStep?
    ensures Next(t, step).reservations == t.reservations && Next(t, step).items == t.items
    ensures Next(t, step).accounts == t.accounts
  {
    hide ValidSpec, NormalizedSpec, ScopeOwned, Lower, ValidCurrency;
  }

  // ---------------------------------------------------------------------------------------
  // Items
  // ---------------------------------------------------------------------------------------

  lemma SettledItemsAlike(u: seq<Item>, w: seq<Item>, u': seq<Item>, w': seq<Item>, id: Str, x: Str, actual: int,
                          charge: int)
    requires ItemsAlike(u, w, id, actual) && x != id
    requires ItemsSettled(u, u', 0, x, charge) && ItemsSettled(w, w', 0, x, charge)
    ensures ItemsAlike(u', w', id, actual)
  {
    forall i | 0 <= i < |u'| ensures ItemAlike(u'[i], w'[i], id, actual) {
      assert ItemAlike(u[i], w[i], id, actual);
    }
  }

  lemma MoreItemsAlike(u: seq<Item>, w: seq<Item>, more: seq<Item>, id: Str, actual: int)
    requires ItemsAlike(u, w, id, actual) && forall i :: 0 <= i < |more| ==> more[i].reservation != id
    ensures ItemsAlike(u + more, w + more, id, actual)
  {
    forall i | 0 <= i < |u + more| ensures ItemAlike((u + more)[i], (w + more)[i], id, actual) {
      if i < |u| {
        assert ItemAlike(u[i], w[i], id, actual);
      }
    }
  }

  lemma SameTargets(u: Tables, w: Tables, dir: Directory, req: Request, tenant: int, now: int)
    requires u.quotas.Keys == w.quotas.Keys && u.policies == w.policies
    ensures TargetsOf(u, dir, req, tenant, now) == TargetsOf(w, dir, req, tenant, now)
  {
    hide ScopesOf, GroupId, QuotaTargets, BudgetTargets;
    var g := GroupId(dir, tenant, req);
    QuotaTargetsFrame(u, w, ScopesOf(req));
    BudgetTargetsFrame(u, w, dir, req, tenant, if g.Some? then g.value else 0, now, 0);
  }

  lemma ReserveItemsAlike(u: Tables, w: Tables, id: Str, actual: int, dir: Directory, request: Request, now: int)
    requires RowsAlike(u, w, id) && ItemsAlike(u.items, w.items, id, actual)
    requires u.quotas.Keys == w.quotas.Keys && u.policies == w.policies
    requires ReserveTx(u, dir, request, now).Commit? && ReserveTx(w, dir, request, now).Commit?
    ensures ItemsAlike(ReserveTx(u, dir, request, now).tables.items, ReserveTx(w, dir, request, now).tables.items, id,
                       actual)
  {
    hide ReserveTx, Normalized, RowsAlike, ItemsAlike, TargetsOf;
    var req := Normalized(request);
    SameIds(u, w, id, req.id);
    if req.id in u.reservations {
      RepeatedReserve(u, dir, request, now);
      RepeatedReserve(w, dir, request, now);
    } else {
      ReserveDrawsOnAll(u, dir, request, now);
      ReserveDrawsOnAll(w, dir, request, now);
      var tenant := dir.tenants[req.tenant];
      SameTargets(u, w, dir, req, tenant, now);
      MoreItemsAlike(u.items, w.items, Holds(req, TargetsOf(u, dir, req, tenant, now)), id, actual);
    }
  }

  lemma SettleItemsAlike(u: Tables, w: Tables, id: Str, actual: int, x: Str, s: Settlement, status: Status, now: int)
    requires ItemsAlike(u.items, w.items, id, actual) && x != id && x in u.reservations && x in w.reservations
    requires ApplyReservation(u, x, s, status, now).Commit? && ApplyReservation(w, x, s, status, now).Commit?
    ensures ItemsAlike(ApplyReservation(u, x, s, status, now).tables.items,
                       ApplyReservation(w, x, s, status, now).tables.items, id, actual)
  {
    hide ApplyReservation, Extends, ItemsSettled, ItemsAlike;
    ApplyReservationEffect(u, x, s, status, now);
    ApplyReservationEffect(w, x, s, status, now);
    SettledItemsAlike(u.items, w.items, ApplyReservation(u, x, s, status, now).tables.items,
                      ApplyReservation(w, x, s, status, now).tables.items, id, x, actual, s.actual);
  }

  lemma QuietKeepsItems(t: Tables, step: Step)
    requires step.DispatchStep? || step.RecordStep? || step.UnknownStep?
    ensures Next(t, step).items == t.items
  {
    hide HasUnknownEvent, ValidSettlement;
  }

  lemma NextItemsAlike(u: Tables, w: Tables, id: Str, actual: int, step: Step)
    requires RowsAlike(u, w, id) && ItemsAlike(u.items, w.items, id, actual)
    requires u.quotas.Keys == w.quotas.Keys && u.policies == w.policies
    requires !Idle(step, id) && !Charges(step, id) && Transact(u, step).Commit? && Transact(w, step).Commit?
    ensures ItemsAlike(Next(u, step).items, Next(w, step).items, id, actual)
  {
    hide ReserveTx, ApplyReservation, ApplyTx, ResolveTx, MarkStaleTx, PatchTx, CreateTx, TopUpTx, RowsAlike,
         ItemsAlike, MarkDispatchedTx, RecordTx, MarkUnknownTx, ValidSettlement, ValidResolution;
    match step
    case ReserveStep(dir, request, now) => ReserveItemsAlike(u, w, id, actual, dir, request, now);
    case ApplyStep(dir, x, now) =>
      SameRow(u, w, id, x);
      ApplyOf(u, step, x);
      ApplyOf(w, step, x);
      if !u.reservations[x].applied {
        var s := u.reservations[x].result.value;
        SettleItemsAlike(u, w, id, actual, x, s, if s.outcome == NoCharge then Released else Settled, now);
      }
    case ResolveStep(dir, tenant, x, res, now) =>
      ResolveOf(u, step);
      ResolveOf(w, step);
      SettleItemsAlike(u, w, id, actual, x, ResolutionResult(x, res), ResolutionStatus(res.action), now);
    case StaleStep(dir, ids, before, now) =>
      MarkStaleMovesNoMoney(u, dir, ids, before, now);
      MarkStaleMovesNoMoney(w, dir, ids, before, now);
    case PatchStep(dir, tenant, policy, patch, now) =>
      PatchTouchesOnePeriod(u, dir, tenant, policy, patch, now);
      PatchTouchesOnePeriod(w, dir, tenant, policy, patch, now);
    case CreateStep(_, _, _) =>
      OperatorKeepsRows(u, step);
      OperatorKeepsRows(w, step);
    case TopUpStep(_, _, _) =>
      OperatorKeepsRows(u, step);
      OperatorKeepsRows(w, step);
    case _ =>
      QuietKeepsItems(u, step);
      QuietKeepsItems(w, step);
  }

  // ---------------------------------------------------------------------------------------
  // Accounts and policies
  // ---------------------------------------------------------------------------------------

  lemma DebitBudgetAlike(u: Tables, w: Tables, dir: Directory, req: Request, policy: nat, now: int)
    requires AccountsAlike(u, w) && u.policies == w.policies && policy < |u.policies|
    requires DebitBudget(u, dir, req, policy, now).Commit? && DebitBudget(w, dir, req, policy, now).Commit?
    ensures var u', w' := DebitBudget(u, dir, req, policy, now).tables, DebitBudget(w, dir, req, policy, now).tables;
            AccountsAlike(u', w') && u'.policies == w'.policies == u.policies
  {
    hide PeriodBounds, Admits;
  }

  lemma {:induction false} DebitBudgetsAlike(u: Tables, w: Tables, dir: Directory, req: Request, tenant: int,
                                             group: int, now: int, i: nat)
    requires AccountsAlike(u, w) && u.policies == w.policies && i <= |u.policies|
    requires DebitBudgets(u, dir, req, tenant, group, now, i).Commit?
             && DebitBudgets(w, dir, req, tenant, group, now, i).Commit?
    ensures AccountsAlike(DebitBudgets(u, dir, req, tenant, group, now, i).tables,
                          DebitBudgets(w, dir, req, tenant, group, now, i).tables)
    decreases |u.policies| - i
  {
    hide AccountsAlike, DebitBudget, Covers;
    if i < |u.policies| {
      if Covers(u.policies[i], tenant, group, req) {
        DebitBudgetAlike(u, w, dir, req, i, now);
        DebitBudgetsAlike(DebitBudget(u, dir, req, i, now).tables, DebitBudget(w, dir, req, i, now).tables, dir, req,
                          tenant, group, now, i + 1);
      } else {
        DebitBudgetsAlike(u, w, dir, req, tenant, group, now, i + 1);
      }
    }
  }

  lemma {:induction false} DebitScopesKeep(t: Tables, req: Request, scopes: seq<Str>)
    requires DebitScopes(t, req, scopes).Commit?
    ensures var u := DebitScopes(t, req, scopes).tables;
            u.accounts == t.accounts && u.policies == t.policies && u.quotas.Keys == t.quotas.Keys
    decreases |scopes|
  {
    hide Lower;
    if scopes != [] {
      DebitScopesKeep(DebitScope(t, req, scopes[0]).tables, req, scopes[1..]);
    }
  }

  lemma ReserveAccountsAlike(u: Tables, w: Tables, id: Str, dir: Directory, request: Request, now: int)
    requires RowsAlike(u, w, id) && AccountsAlike(u, w) && u.policies == w.policies
    requires ReserveTx(u, dir, request, now).Commit? && ReserveTx(w, dir, request, now).Commit?
    ensures AccountsAlike(ReserveTx(u, dir, request, now).tables, ReserveTx(w, dir, request, now).tables)
    ensures ReserveTx(u, dir, request, now).tables.quotas.Keys == u.quotas.Keys
  {
    hide DebitScopes, DebitBudgets, Normalized, ValidRequest, LegacyGroup, ScopesOf, GroupId, RowsAlike, AccountsAlike;
    var req := Normalized(request);
    SameIds(u, w, id, req.id);
    if req.id !in u.reservations {
      var tenant := dir.tenants[req.tenant];
      var u1, w1 := WithRow(u, req.id, NewRow(req, tenant, now)), WithRow(w, req.id, NewRow(req, tenant, now));
      DebitScopesKeep(u1, req, ScopesOf(req));
      DebitScopesKeep(w1, req, ScopesOf(req));
      var u2, w2 := DebitScopes(u1, req, ScopesOf(req)).tables, DebitScopes(w1, req, ScopesOf(req)).tables;
      AccountsFrame(u, w, u2, w2);
      DebitBudgetsAlike(u2, w2, dir, req, tenant, GroupId(dir, tenant, req).value, now, 0);
      DebitBudgetsKeepQuotas(u2, dir, req, tenant, GroupId(dir, tenant, req).value, now, 0);
    }
  }

  lemma AccountsFrame(u: Tables, w: Tables, u': Tables, w': Tables)
    requires AccountsAlike(u, w) && u'.accounts == u.accounts && w'.accounts == w.accounts
    ensures AccountsAlike(u', w')
  {
  }

  lemma PatchAlike(u: Tables, w: Tables, dir: Directory, tenant: int, policy: nat, patch: Patch, now: int)
    requires AccountsAlike(u, w) && u.policies == w.policies
    requires PatchTx(u, dir, tenant, policy, patch, now).Commit? && PatchTx(w, dir, tenant, policy, patch, now).Commit?
    ensures var u', w' := PatchTx(u, dir, tenant, policy, patch, now).tables,
                          PatchTx(w, dir, tenant, policy, patch, now).tables;
            AccountsAlike(u', w') && u'.policies == w'.policies
  {
    hide PeriodBounds, Emit;
  }

  lemma CreateAlike(u: Tables, w: Tables, step: Step)
    requires step.CreateStep? && u.policies == w.policies && Transact(u, step).Commit? && Transact(w, step).Commit?
    ensures Next(u, step).policies == Next(w, step).policies
  {
    hide ValidSpec, NormalizedSpec, ScopeOwned;
  }

  lemma TermsChain(u: Tables, w: Tables, u': Tables, w': Tables)
    requires AccountsAlike(u, w) && SameAccountTerms(u, u') && SameAccountTerms(w, w')
    ensures AccountsAlike(u', w')
  {
    forall a | a in w'.accounts ensures SameTermsOf(w'.accounts[a], u'.accounts[a]) {
      assert a in w.accounts.Keys;
      assert SameTermsOf(w.accounts[a], u.accounts[a]) && SameTermsOf(u.accounts[a], u'.accounts[a])
             && SameTermsOf(w.accounts[a], w'.accounts[a]);
    }
  }

  lemma NextAccountsAlike(u: Tables, w: Tables, id: Str, step: Step)
    requires RowsAlike(u, w, id) && AccountsAlike(u, w) && u.policies == w.policies
    requires Transact(u, step).Commit? && Transact(w, step).Commit?
    ensures AccountsAlike(Next(u, step), Next(w, step)) && Next(u, step).policies == Next(w, step).policies
  {
    hide ReserveTx, PatchTx, CreateTx, RowsAlike, AccountsAlike, SameAccountTerms;
    if step.ReserveStep? {
      ReserveAccountsAlike(u, w, id, step.dir, step.req, step.now);
      ReserveRows(u, step.dir, step.req, step.now);
      ReserveRows(w, step.dir, step.req, step.now);
    } else if step.PatchStep? {
      PatchAlike(u, w, step.dir, step.tenant, step.policy, step.patch, step.now);
    } else if step.CreateStep? {
      CreateAlike(u, w, step);
      OperatorKeepsRows(u, step);
      OperatorKeepsRows(w, step);
      AccountsFrame(u, w, Next(u, step), Next(w, step));
    } else {
      hide Next;
      NextKeepsTerms(u, step);
      NextKeepsTerms(w, step);
      TermsChain(u, w, Next(u, step), Next(w, step));
    }
  }

  // ---------------------------------------------------------------------------------------
  // Quotas
  // ---------------------------------------------------------------------------------------

  /** Only a top-up adds a quota scope. */
  lemma NextKeepsScopes(t: Tables, step: Step)
    requires !step.TopUpStep? && !step.ReserveStep?
    ensures Next(t, step).quotas.Keys == t.quotas.Keys
  {
    hide ApplyReservation, ApplyTx, ResolveTx, MarkStaleTx, PatchTx, CreateTx, ValidSettlement, ValidResolution,
         Resolvable, HasUnknownEvent, ItemsSettled, Extends;
    if Transact(t, step).Commit? {
      match step
      case ApplyStep(dir, x, now) =>
        ApplyOf(t, step, x);
        if !t.reservations[x].applied {
          var s := t.reservations[x].result.value;
          ApplyReservationEffect(t, x, s, if s.outcome == NoCharge then Released else Settled, now);
        }
      case ResolveStep(dir, tenant, x, res, now) =>
        ResolveOf(t, step);
        ApplyReservationEffect(t, x, ResolutionResult(x, res), ResolutionStatus(res.action), now);
      case StaleStep(dir, ids, before, now) => MarkStaleMovesNoMoney(t, dir, ids, before, now);
      case PatchStep(dir, tenant, policy, patch, now) => PatchTouchesOnePeriod(t, dir, tenant, policy, patch, now);
      case CreateStep(dir, spec, now) => CreateKeepsQuotas(t, step);
      case _ =>
    }
  }

  lemma CreateKeepsQuotas(t: Tables, step: Step)
    requires step.CreateStep?
    ensures Next(t, step).quotas == t.quotas
  {
    hide ValidSpec, NormalizedSpec, ScopeOwned;
  }

  lemma TopUpAlike(u: Tables, w: Tables, step: Step)
    requires step.TopUpStep? && QuotasAlike(u, w) && Transact(u, step).Commit? && Transact(w, step).Commit?
    ensures QuotasAlike(Next(u, step), Next(w, step))
  {
    hide Lower, ValidCurrency;
    assert step.scope in u.quotas.Keys <==> step.scope in w.quotas.Keys;
  }

  lemma KeptQuotasAlike(u: Tables, w: Tables, u': Tables, w': Tables)
    requires QuotasAlike(u, w) && Extends(u, u') && Extends(w, w')
    requires u'.quotas.Keys == u.quotas.Keys && w'.quotas.Keys == w.quotas.Keys
    ensures QuotasAlike(u', w')
  {
    hide PoliciesKept, ItemsKept, RowsKept, AccountsKept;
    forall s | s in u'.quotas ensures u'.quotas[s].currency == w'.quotas[s].currency {
      assert s in u.quotas.Keys && s in w.quotas.Keys;
    }
  }

  lemma NextQuotasAlike(u: Tables, w: Tables, id: Str, step: Step)
    requires RowsAlike(u, w, id) && AccountsAlike(u, w) && u.policies == w.policies && QuotasAlike(u, w)
    requires Transact(u, step).Commit? && Transact(w, step).Commit?
    ensures QuotasAlike(Next(u, step), Next(w, step))
  {
    hide ReserveTx, RowsAlike, AccountsAlike, QuotasAlike, Extends;
    if step.TopUpStep? {
      TopUpAlike(u, w, step);
    } else {
      if step.ReserveStep? {
        ReserveKeepsScopes(u, step.dir, step.req, step.now);
        ReserveKeepsScopes(w, step.dir, step.req, step.now);
      } else {
        hide Next;
        NextKeepsScopes(u, step);
        NextKeepsScopes(w, step);
      }
      NextExtends(u, step);
      NextExtends(w, step);
      KeptQuotasAlike(u, w, Next(u, step), Next(w, step));
    }
  }

  lemma ReserveKeepsScopes(t: Tables, dir: Directory, request: Request, now: int)
    requires ReserveTx(t, dir, request, now).Commit?
    ensures ReserveTx(t, dir, request, now).tables.quotas.Keys == t.quotas.Keys
  {
    hide ReserveTx, Normalized;
    if Normalized(request).id in t.reservations {
      RepeatedReserve(t, dir, request, now);
    } else {
      ReserveExact(t, dir, request, now);
    }
  }

  lemma NextClaimsAlike(u: Tables, w: Tables, step: Step)
    requires Inv(u) && Inv(w) && ClaimsAlike(u, w) && DecidedAlike(u, w, step)
    ensures ClaimsAlike(Next(u, step), Next(w, step))
  {
    hide Next, Transact, Claim, Books, Linked, RowsOk, ItemsOk, ReceiptsOk;
    forall s ensures Claim(Next(u, step), s) == Claim(Next(w, step), s) {
      NextConserves(u, step, s);
      NextConserves(w, step, s);
      assert Claim(u, s) == Claim(w, s);
    }
  }

  // ---------------------------------------------------------------------------------------
  // Runs
  // ---------------------------------------------------------------------------------------

  lemma NextTwins(u: Tables, w: Tables, id: Str, actual: int, step: Step)
    requires Twins(u, w, id, actual) && !Charges(step, id) && (Idle(step, id) || DecidedAlike(u, w, step))
    ensures Twins(Next(u, step), Next(w, step), id, actual)
  {
    hide Inv, RowsAlike, ItemsAlike, AccountsAlike, ClaimsAlike, Transact;
    if Idle(step, id) {
      IdleStep(u, w, id, step);
    } else if Transact(u, step).Commit? {
      NextKeepsInv(u, step);
      NextKeepsInv(w, step);
      NextRowsAlike(u, w, id, step);
      NextItemsAlike(u, w, id, actual, step);
      NextAccountsAlike(u, w, id, step);
      NextQuotasAlike(u, w, id, step);
      NextClaimsAlike(u, w, step);
    }
  }

  /** Along the run no step charges the reservation, and every other step is decided alike in both. */
  ghost predicate Parallel(u: Tables, w: Tables, id: Str, steps: seq<Step>) {
    forall n :: 0 <= n < |steps| ==>
      && !Charges(steps[n], id)
      && (Idle(steps[n], id) || DecidedAlike(Run(u, steps[..n]), Run(w, steps[..n]), steps[n]))
  }

  lemma {:induction false} RunTwins(u: Tables, w: Tables, id: Str, actual: int, steps: seq<Step>)
    requires Twins(u, w, id, actual) && Parallel(u, w, id, steps)
    ensures Twins(Run(u, steps), Run(w, steps), id, actual)
  {
    hide Twins, Next, DecidedAlike;
    if steps != [] {
      var n := |steps| - 1;
      var before := steps[..n];
      assert Parallel(u, w, id, before) by {
        forall m | 0 <= m < n
          ensures && !Charges(before[m], id)
                  && (Idle(before[m], id) || DecidedAlike(Run(u, before[..m]), Run(w, before[..m]), before[m]))
        {
          assert before[..m] == steps[..m] && before[m] == steps[m];
        }
      }
      RunTwins(u, w, id, actual, before);
      NextTwins(Run(u, before), Run(w, before), id, actual, steps[n]);
    }
  }

  /** A direct settlement and a risk release of the same reservation are twins. */
  lemma ResolutionsAreTwins(t: Tables, dir: Directory, tenant: int, id: Str, direct: Resolution, release: Resolution,
                            now: int)
    requires Inv(t) && direct.action == Settle && release.action == ReleaseUnknown
    requires ResolveTx(t, dir, tenant, id, direct, now).Commit? && ResolveTx(t, dir, tenant, id, release, now).Commit?
    ensures direct.actual.Some?
    ensures Twins(ResolveTx(t, dir, tenant, id, direct, now).tables, ResolveTx(t, dir, tenant, id, release, now).tables,
                  id,
                  direct.actual.value)
  {
    hide Inv, ResolveTx, Settles, Books, RowsAlike, ItemsAlike, AccountsAlike, QuotasAlike, ClaimsAlike;
    var u, w := ResolveTx(t, dir, tenant, id, direct, now).tables, ResolveTx(t, dir, tenant, id, release, now).tables;
    ResolvedRow(t, dir, tenant, id, direct, now);
    InvBooks(t);
    NextKeepsInv(t, ResolveStep(dir, tenant, id, direct, now));
    NextKeepsInv(t, ResolveStep(dir, tenant, id, release, now));
    ResolveSettles(t, dir, tenant, id, direct, now);
    ResolveSettles(t, dir, tenant, id, release, now);
    ResolvedRowsAlike(t, dir, tenant, id, direct, release, now);
    SettledBothWays(t, u, w, id, direct.actual.value);
  }

  lemma ResolvedRowsAlike(t: Tables, dir: Directory, tenant: int, id: Str, direct: Resolution, release: Resolution,
                          now: int)
    requires Inv(t) && direct.action == Settle && release.action == ReleaseUnknown
    requires ResolveTx(t, dir, tenant, id, direct, now).Commit? && ResolveTx(t, dir, tenant, id, release, now).Commit?
    ensures var u, w := ResolveTx(t, dir, tenant, id, direct, now).tables,
                        ResolveTx(t, dir, tenant, id, release, now).tables;
            RowsAlike(u, w, id) && u.policies == w.policies && id in t.reservations
            && t.reservations[id].status == Unknown
  {
    hide ApplyReservation, Blank, Books, Linked, ItemsOk, ReceiptsOk, Extends, ItemsSettled;
    RowIsOk(t, id);
    ApplyReservationEffect(t, id, ResolutionResult(id, direct), Settled, now);
    ApplyReservationEffect(t, id, ResolutionResult(id, release), ReleasedUnknown, now);
  }

  lemma SettledBothWays(t: Tables, u: Tables, w: Tables, id: Str, actual: int)
    requires Settles(t, u, id, actual) && Settles(t, w, id, 0)
    ensures ItemsAlike(u.items, w.items, id, actual) && AccountsAlike(u, w) && QuotasAlike(u, w) && ClaimsAlike(u, w)
  {
    hide Claim, Books;
    forall i | 0 <= i < |u.items| ensures ItemAlike(u.items[i], w.items[i], id, actual) {
    }
    forall a | a in w.accounts ensures a in u.accounts && SameTermsOf(w.accounts[a], u.accounts[a]) {
      assert a in t.accounts.Keys;
      assert SameTermsOf(t.accounts[a], u.accounts[a]) && SameTermsOf(t.accounts[a], w.accounts[a]);
    }
    assert forall s :: Claim(u, s) == Claim(t, s) && Claim(w, s) == Claim(t, s);
  }

  /** Charging the released twin late brings it to the settled twin's funds. */
  lemma LateChargeMeetsTwin(u: Tables, w: Tables, late: Tables, id: Str, actual: int)
    requires Twins(u, w, id, actual) && Settles(w, late, id, actual)
    ensures SameFunds(u, late)
  {
    hide Total, Linked, RowsOk, ItemsOk, ReceiptsOk;
    assert SameHoldings(u.items, late.items) by { TwinHoldings(u.items, w.items, late.items, id, actual); }
    forall s | s in u.quotas ensures s in late.quotas && late.quotas[s] == u.quotas[s] {
      assert s in u.quotas.Keys && s in w.quotas.Keys && s in late.quotas.Keys;
      SameHoldingsTotals(u.items, late.items, OnQuota(s));
      assert Claim(u, s) == Claim(w, s) && Claim(late, s) == Claim(w, s);
    }
    forall a | a in u.accounts
      ensures a in late.accounts && late.accounts[a] == u.accounts[a].(released := late.accounts[a].released)
    {
      assert a in u.accounts.Keys && a in w.accounts.Keys && a in late.accounts.Keys;
      SameHoldingsTotals(u.items, late.items, OnAccount(a));
      assert Balanced(u, a) && Balanced(late, a);
      assert SameTermsOf(w.accounts[a], u.accounts[a]) && SameTermsOf(w.accounts[a], late.accounts[a]);
    }
    assert late.quotas.Keys == u.quotas.Keys;
  }

  lemma TwinHoldings(us: seq<Item>, ws: seq<Item>, late: seq<Item>, id: Str, actual: int)
    requires ItemsAlike(us, ws, id, actual) && ItemsSettled(ws, late, 0, id, actual)
    ensures SameHoldings(us, late)
  {
    forall i | 0 <= i < |us| ensures late[i] == us[i].(released := late[i].released) {
      assert ItemAlike(us[i], ws[i], id, actual);
    }
  }

  /** `release_unknown`, then any run, then a late charge by an operator or by `Finish`, leaves the funds
      of settling directly and then running the same transactions, provided each of them is decided alike
      after both. */
  lemma DetourMatchesDirect(t: Tables, dir: Directory, tenant: int, id: Str, direct: Resolution, release: Resolution,
                            steps: seq<Step>, late: Resolution, s: Settlement, now: int, later: int)
    requires Inv(t) && direct.action == Settle && release.action == ReleaseUnknown
    requires ResolveTx(t, dir, tenant, id, direct, now).Commit? && ResolveTx(t, dir, tenant, id, release, now).Commit?
    requires Parallel(ResolveTx(t, dir, tenant, id, direct, now).tables,
                      ResolveTx(t, dir, tenant, id, release, now).tables, id, steps)
    ensures var u := Run(ResolveTx(t, dir, tenant, id, direct, now).tables, steps);
            var w := Run(ResolveTx(t, dir, tenant, id, release, now).tables, steps);
            var x, y := ResolveTx(w, dir, tenant, id, late, later), RecordTx(w, s, later);
            && (x.Commit? && late.action == Settle && late.actual == direct.actual ==> SameFunds(u, x.tables))
            && (s.id == id && Some(s.actual) == direct.actual && y.Commit?
                && ApplyTx(y.tables, dir, id, later).Commit? ==>
                  SameFunds(u, ApplyTx(y.tables, dir, id, later).tables))
  {
    hide Inv, ResolveTx, RecordTx, ApplyTx, Settles, SameFunds, Books, Run, Parallel, RowsAlike, ItemsAlike,
         AccountsAlike, QuotasAlike, ClaimsAlike;
    ResolutionsAreTwins(t, dir, tenant, id, direct, release, now);
    var actual := direct.actual.value;
    var u0, w0 := ResolveTx(t, dir, tenant, id, direct, now).tables, ResolveTx(t, dir, tenant, id, release, now).tables;
    RunTwins(u0, w0, id, actual, steps);
    var u, w := Run(u0, steps), Run(w0, steps);
    InvBooks(w);
    Unapplied(u, w, id);
    var x, y := ResolveTx(w, dir, tenant, id, late, later), RecordTx(w, s, later);
    if x.Commit? && late.action == Settle && late.actual == direct.actual {
      ResolveSettles(w, dir, tenant, id, late, later);
      LateChargeMeetsTwin(u, w, x.tables, id, actual);
    }
    if s.id == id && Some(s.actual) == direct.actual && y.Commit? && ApplyTx(y.tables, dir, id, later).Commit? {
      FinishSettles(w, dir, s, later);
      LateChargeMeetsTwin(u, w, ApplyTx(y.tables, dir, id, later).tables, id, actual);
    }
  }

  lemma Unapplied(u: Tables, w: Tables, id: Str)
    requires RowsAlike(u, w, id)
    ensures id in w.reservations && w.reservations[id].result.None? && !w.reservations[id].applied
  {
  }

  // ---------------------------------------------------------------------------------------
  // A transaction that is decided differently
  // ---------------------------------------------------------------------------------------

  const USD: Str := [117, 115, 100]
  const TENANT: Str := [116]
  const SCOPE: Str := TENANT_PREFIX + TENANT
  const DIR := Directory(map[TENANT := 1], map[], {}, {}, map[])

  /** A reservation of ten units by the only tenant, under the given id. */
  function Ten(id: Str): Request {
    Request(id, [], TENANT, [], [], None, [], USD, 10, NO_PRICES)
  }

  const FIRST: Str := [97]
  const SECOND: Str := [98]

  /** Ten units of credit, reserved by the first request and then of unknown charge. */
  const SETUP: seq<Step> := [TopUpStep(SCOPE, 10, USD), ReserveStep(DIR, Ten(FIRST), 0), UnknownStep(DIR, FIRST, [], 0)]

  const DIRECT := Resolution(2, Settle, Some(10), [120], [120], 1)
  const RELEASE := Resolution(2, ReleaseUnknown, None, [120], [120], 1)
  const LATE := Resolution(3, Settle, Some(10), [120], [120], 1)

  lemma ReserveTen(t: Tables, id: Str)
    requires id != [] && id !in t.reservations && t.policies == [] && SCOPE in t.quotas
             && t.quotas[SCOPE].currency == USD
    ensures ReserveTx(t, DIR, Ten(id), 0)
            == if t.quotas[SCOPE].balance < 10 then Abort(Insufficient)
               else Commit(t.(reservations := t.reservations[id := NewRow(Ten(id), 1, 0)],
                              quotas := t.quotas[SCOPE := t.quotas[SCOPE].(balance := t.quotas[SCOPE].balance - 10)],
                              items := t.items + [HeldItem(Ten(id), OnQuota(SCOPE))]))
  {
    TenIsValid(id);
    var req, w := Ten(id), WithRow(t, id, NewRow(Ten(id), 1, 0));
    DebitOnly(w, req);
    assert OwnedByTenant(DIR, 1, req) && !LegacyGroup(t, req) && DIR.tenants[TENANT] == 1;
    hide DebitScopes, Normalized, ScopesOf, ValidRequest, LegacyGroup, OwnedByTenant;
  }

  lemma TenIsValid(id: Str)
    requires id != []
    ensures Normalized(Ten(id)) == Ten(id) && ScopesOf(Ten(id)) == [SCOPE] && ValidRequest(Ten(id))
  {
    assert Lower(USD) == USD;
  }

  lemma DebitOnly(t: Tables, req: Request)
    requires SCOPE in t.quotas && t.quotas[SCOPE].currency == USD && req.currency == USD && req.estimate == 10
    ensures DebitScopes(t, req, [SCOPE])
            == if t.quotas[SCOPE].balance < 10 then Abort(Insufficient)
               else Commit(t.(quotas := t.quotas[SCOPE := t.quotas[SCOPE].(balance := t.quotas[SCOPE].balance - 10)],
                              items := t.items + [HeldItem(req, OnQuota(SCOPE))]))
  {
    assert Lower(USD) == USD;
    hide Lower;
    assert [SCOPE][1..] == [];
    assert DebitScopes(t, req, [SCOPE])
        == var tx := DebitScope(t, req, SCOPE); if tx.Abort? then tx else DebitScopes(tx.tables, req, [SCOPE][1..]);
  }

  /** The tables of the setup. */
  const WAITING := Tables(
    [], map[SCOPE := Quota(0, USD)], map[],
    map[FIRST := NewRow(Ten(FIRST), 1, 0).(status := Unknown, version := 2)],
    [HeldItem(Ten(FIRST), OnQuota(SCOPE))], [UnknownCharge(FIRST, [])], [])

  lemma RunThree(t: Tables, a: Step, b: Step, c: Step)
    ensures Run(t, [a, b, c]) == Next(Next(Next(t, a), b), c)
  {
    hide Next;
    var steps := [a, b, c];
    assert steps[..2] == [a, b] && [a, b][..1] == [a] && [a][..0] == [];
    assert Run(t, [a]) == Next(Run(t, [a][..0]), a);
    assert Run(t, [a, b]) == Next(Run(t, [a, b][..1]), b);
  }

  const CREDITED := EMPTY.(quotas := map[SCOPE := Quota(10, USD)])

  lemma CreditTen()
    ensures Next(EMPTY, TopUpStep(SCOPE, 10, USD)) == CREDITED
  {
    assert Lower(USD) == USD;
    assert SCOPE[0] != Scope.GROUP_PREFIX[0];
    assert ValidCurrency(USD);
  }

  lemma SetupLeadsToWaiting()
    ensures Run(EMPTY, SETUP) == WAITING
  {
    hide Next, Run;
    RunThree(EMPTY, SETUP[0], SETUP[1], SETUP[2]);
    CreditTen();
    ReserveCredited();
    MarkFirst();
  }

  const HELD := CREDITED.(reservations := map[FIRST := NewRow(Ten(FIRST), 1, 0)], quotas := map[SCOPE := Quota(0, USD)],
                          items := [HeldItem(Ten(FIRST), OnQuota(SCOPE))])

  lemma ReserveCredited()
    ensures Next(CREDITED, SETUP[1]) == HELD
  {
    hide ReserveTx;
    ReserveTen(CREDITED, FIRST);
    assert HELD.reservations == CREDITED.reservations[FIRST := NewRow(Ten(FIRST), 1, 0)];
  }

  lemma MarkFirst()
    ensures Next(HELD, SETUP[2]) == WAITING
  {
    hide HasUnknownEvent;
    assert DIR.tenants[TENANT] == 1;
    NoUnknownEvent(FIRST);
  }

  lemma NoUnknownEvent(id: Str)
    ensures !HasUnknownEvent([], id)
  {
  }

  /** One item of one quota scope settled at a charge. */
  lemma SettleOnly(t: Tables, s: Settlement, status: Status)
    requires FIRST in t.reservations && t.reservations[FIRST].identity.currency == USD && SCOPE in t.quotas
    requires t.quotas[SCOPE].currency == USD && -100 <= t.quotas[SCOPE].balance <= 100 && 0 <= s.actual <= 100
    requires |t.items| >= 1 && t.items[0].reservation == FIRST && t.items[0].target == OnQuota(SCOPE)
    requires 0 <= t.items[0].held <= 100 && 0 <= t.items[0].committed <= 100 && 0 <= t.items[0].released <= 100
    requires |t.items| == 1 || (|t.items| == 2 && t.items[1].reservation != FIRST)
    ensures var tx := ApplyReservation(t, FIRST, s, status, 0);
            tx.Commit? && SCOPE in tx.tables.quotas
            && tx.tables.quotas[SCOPE].balance
               == t.quotas[SCOPE].balance + t.items[0].held + t.items[0].committed - s.actual
            && tx.tables.policies == t.policies && tx.tables.accounts == t.accounts
            && tx.tables.quotas == t.quotas[SCOPE := tx.tables.quotas[SCOPE]]
            && tx.tables.items == t.items[0 := SettleItem(t.items[0], s.actual)]
            && tx.tables.reservations == t.reservations[FIRST := SettledRow(t.reservations[FIRST], s, status, 0)]
            && tx.tables.quotas[SCOPE].currency == USD
  {
    assert Lower(USD) == USD;
    var w := ApplyItem(t, 0, s, USD).tables;
    assert ApplyItems(t, 0, FIRST, s, USD) == ApplyItems(w, 1, FIRST, s, USD);
    if |t.items| == 2 {
      assert ApplyItems(w, 1, FIRST, s, USD) == ApplyItems(w, 2, FIRST, s, USD);
    }
  }

  /** An operator's resolution of the first reservation. */
  lemma ResolveFirst(t: Tables, res: Resolution)
    requires res == DIRECT || res == RELEASE || res == LATE
    requires FIRST in t.reservations && t.reservations[FIRST].tenant == 1 && Resolvable(t.reservations[FIRST], res)
    requires t.reservations[FIRST].identity.currency == USD && SCOPE in t.quotas
    requires t.quotas[SCOPE].currency == USD && -100 <= t.quotas[SCOPE].balance <= 100
    requires |t.items| >= 1 && t.items[0].reservation == FIRST && t.items[0].target == OnQuota(SCOPE)
    requires 0 <= t.items[0].held <= 100 && 0 <= t.items[0].committed <= 100 && 0 <= t.items[0].released <= 100
    requires |t.items| == 1 || (|t.items| == 2 && t.items[1].reservation != FIRST)
    ensures var charge, tx := if res.actual.Some? then res.actual.value else 0, ResolveTx(t, DIR, 1, FIRST, res, 0);
            && tx.Commit? && tx.tables.policies == t.policies && SCOPE in tx.tables.quotas
            && tx.tables.quotas[SCOPE].currency == USD
            && tx.tables.quotas[SCOPE].balance
               == t.quotas[SCOPE].balance + t.items[0].held + t.items[0].committed - charge
            && tx.tables.items == t.items[0 := SettleItem(t.items[0], charge)]
            && ValidResolution(res)
            && tx.tables.reservations
               == t.reservations[FIRST := SettledRow(t.reservations[FIRST], ResolutionResult(FIRST, res),
                                                     ResolutionStatus(res.action), 0)]
  {
    var note: Str := [120];
    assert note[0] in note && !Blank(note);
    assert DIR.tenants[TENANT] == 1 && TenantExists(DIR, 1);
    hide ApplyReservation, Blank, TenantExists;
    SettleOnly(t, ResolutionResult(FIRST, res), ResolutionStatus(res.action));
  }

  /** The second reservation is refused after the direct settlement and admitted after the release, so the
      late charge overdraws the quota and the funds differ. */
  lemma DivergentDecisionSplitsFunds()
    ensures var t := Run(EMPTY, SETUP);
            var u, w := ResolveTx(t, DIR, 1, FIRST, DIRECT, 0), ResolveTx(t, DIR, 1, FIRST, RELEASE, 0);
            && u.Commit? && w.Commit?
            && var step := ReserveStep(DIR, Ten(SECOND), 0);
               var late := ResolveTx(Next(w.tables, step), DIR, 1, FIRST, LATE, 0);
               && !DecidedAlike(u.tables, w.tables, step) && late.Commit?
               && !SameFunds(Next(u.tables, step), late.tables)
  {
    hide Run, ResolveTx, ReserveTx, ValidResolution;
    SetupLeadsToWaiting();
    ResolveFirst(WAITING, DIRECT);
    ResolveFirst(WAITING, RELEASE);
    var u, w := ResolveTx(WAITING, DIR, 1, FIRST, DIRECT, 0).tables,
                ResolveTx(WAITING, DIR, 1, FIRST, RELEASE, 0).tables;
    assert u.quotas[SCOPE].balance == 0 && w.quotas[SCOPE].balance == 10;
    ReserveTen(u, SECOND);
    ReserveTen(w, SECOND);
    var step := ReserveStep(DIR, Ten(SECOND), 0);
    var w' := Next(w, step);
    assert w'.reservations[FIRST] == w.reservations[FIRST];
    ResolveFirst(w', LATE);
    assert ResolveTx(w', DIR, 1, FIRST, LATE, 0).tables.quotas[SCOPE].balance == -10;
    assert Next(u, step).quotas[SCOPE].balance == 0;
  }
}
