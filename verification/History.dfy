/**
 What no transaction ever takes back: rows stay, identities and item origins are frozen, events
 and usage rows are append-only. Also the exact effect of a settlement on the item table.
 */
module History {
  import opened Text
  import opened Calendar
  import opened Tables
  import opened Transactions

  predicate SameTerms(p: Policy, q: Policy) {
    q == p.(limit := q.limit, enabled := q.enabled, version := q.version)
  }

  predicate SameOrigin(it: Item, jt: Item) {
    jt == it.(held := jt.held, committed := jt.committed, released := jt.released)
  }

  predicate SameIdentity(r: Reservation, q: Reservation) {
    q.tenant == r.tenant && q.identity == r.identity
  }

  ghost predicate PoliciesKept(t: Tables, u: Tables) {
    |t.policies| <= |u.policies| && forall i :: 0 <= i < |t.policies| ==> SameTerms(t.policies[i], u.policies[i])
  }

  ghost predicate QuotasKept(t: Tables, u: Tables) {
    forall s :: s in t.quotas ==> s in u.quotas && u.quotas[s].currency == t.quotas[s].currency
  }

  ghost predicate AccountsKept(t: Tables, u: Tables) {
    forall a :: a in t.accounts ==> a in u.accounts
  }

  ghost predicate RowsKept(t: Tables, u: Tables) {
    forall id :: id in t.reservations ==> id in u.reservations && SameIdentity(t.reservations[id], u.reservations[id])
  }

  ghost predicate ItemsKept(t: Tables, u: Tables) {
    |t.items| <= |u.items| && forall i :: 0 <= i < |t.items| ==> SameOrigin(t.items[i], u.items[i])
  }

  ghost predicate Extends(t: Tables, u: Tables) {
    && PoliciesKept(t, u) && QuotasKept(t, u) && AccountsKept(t, u) && RowsKept(t, u) && ItemsKept(t, u)
    && t.events <= u.events && t.usage <= u.usage
  }

  lemma ExtendsTransitive(t: Tables, u: Tables, v: Tables)
    requires Extends(t, u) && Extends(u, v)
    ensures Extends(t, v)
  {
    assert PoliciesKept(t, v) by {
      forall i | 0 <= i < |t.policies| ensures SameTerms(t.policies[i], v.policies[i]) {
        assert SameTerms(t.policies[i], u.policies[i]) && SameTerms(u.policies[i], v.policies[i]);
      }
    }
    assert ItemsKept(t, v) by {
      forall i | 0 <= i < |t.items| ensures SameOrigin(t.items[i], v.items[i]) {
        assert SameOrigin(t.items[i], u.items[i]) && SameOrigin(u.items[i], v.items[i]);
      }
    }
    assert RowsKept(t, v) by {
      forall id | id in t.reservations
        ensures id in v.reservations && SameIdentity(t.reservations[id], v.reservations[id])
      {
        assert SameIdentity(t.reservations[id], u.reservations[id]);
      }
    }
  }

  // ---------------------------------------------------------------------------------------
  // Events are append-only
  // ---------------------------------------------------------------------------------------

  lemma {:induction false} AddThresholdsGrows(events: seq<Event>, key: AccountKey, a: Account, percents: seq<int>,
                                              cause: Option<Str>)
    ensures events <= AddThresholds(events, key, a, percents, cause)
    decreases |percents|
  {
    if percents != [] {
      AddThresholdsGrows(AddThreshold(events, key, a, percents[0], cause), key, a, percents[1..], cause);
    }
  }

  lemma EmitGrows(t: Tables, key: AccountKey, cause: Option<Str>)
    ensures t.events <= Emit(t, key, cause)
  {
    if key in t.accounts && key.policy < |t.policies| {
      AddThresholdsGrows(t.events, key, t.accounts[key], t.policies[key.policy].thresholds, cause);
    }
  }

  // ---------------------------------------------------------------------------------------
  // Settlement
  // ---------------------------------------------------------------------------------------

  lemma ApplyItemExtends(t: Tables, i: nat, s: Settlement, currency: Str)
    requires i < |t.items| && ApplyItem(t, i, s, currency).Commit?
    ensures var u := ApplyItem(t, i, s, currency).tables;
            && Extends(t, u)
            && u.items == t.items[i := SettleItem(t.items[i], s.actual)]
            && u.reservations == t.reservations && u.policies == t.policies && u.usage == t.usage
            && u.accounts.Keys == t.accounts.Keys && u.quotas.Keys == t.quotas.Keys
  {
    hide Lower, Emit;
    var u, it := ApplyItem(t, i, s, currency).tables, t.items[i];
    assert SameOrigin(it, SettleItem(it, s.actual));
    assert u.items == t.items[i := SettleItem(it, s.actual)];
    if it.target.OnAccount? {
      var key := it.target.account;
      EmitGrows(t.(accounts := t.accounts[key := SettleAccount(t.accounts[key], it, s.actual)]), key,
                Some(it.reservation));
    }
  }

  /** Rows from `i` on that belong to the reservation are settled, every other row is untouched. */
  ghost predicate ItemsSettled(before: seq<Item>, after: seq<Item>, i: nat, id: Str, actual: int) {
    |after| == |before| &&
    forall j :: 0 <= j < |before| ==>
      after[j] == if i <= j && before[j].reservation == id then SettleItem(before[j], actual) else before[j]
  }

  lemma {:induction false} ApplyItemsEffect(t: Tables, i: nat, id: Str, s: Settlement, currency: Str)
    requires i <= |t.items| && ApplyItems(t, i, id, s, currency).Commit?
    ensures var u := ApplyItems(t, i, id, s, currency).tables;
            && Extends(t, u)
            && ItemsSettled(t.items, u.items, i, id, s.actual)
            && u.reservations == t.reservations && u.policies == t.policies && u.usage == t.usage
            && u.accounts.Keys == t.accounts.Keys && u.quotas.Keys == t.quotas.Keys
    decreases |t.items| - i
  {
    hide Extends;
    if i == |t.items| {
      ExtendsReflexive(t);
    } else if t.items[i].reservation != id {
      ApplyItemsEffect(t, i + 1, id, s, currency);
    } else {
      var w := ApplyItem(t, i, s, currency).tables;
      ApplyItemExtends(t, i, s, currency);
      ApplyItemsEffect(w, i + 1, id, s, currency);
      ExtendsTransitive(t, w, ApplyItems(t, i, id, s, currency).tables);
    }
  }

  lemma ExtendsReflexive(t: Tables)
    ensures Extends(t, t)
  {
  }

  /** A settlement touches exactly the reservation's items and row, and inserts its usage row. */
  lemma ApplyReservationEffect(t: Tables, id: Str, s: Settlement, status: Status, now: int)
    requires id in t.reservations && ApplyReservation(t, id, s, status, now).Commit?
    ensures var u := ApplyReservation(t, id, s, status, now).tables;
            && Extends(t, u)
            && ItemsSettled(t.items, u.items, 0, id, s.actual)
            && u.reservations == t.reservations[id := SettledRow(t.reservations[id], s, status, now)]
            && u.usage == t.usage + UsageOf(id, s)
            && u.policies == t.policies && u.accounts.Keys == t.accounts.Keys && u.quotas.Keys == t.quotas.Keys
  {
    hide ApplyItems, ItemsSettled;
    var r := t.reservations[id];
    ApplyItemsEffect(t, 0, id, s, r.identity.currency);
    var w, u := ApplyItems(t, 0, id, s, r.identity.currency).tables, ApplyReservation(t, id, s, status, now).tables;
    assert SameIdentity(r, SettledRow(r, s, status, now));
    assert Extends(w, u);
    ExtendsTransitive(t, w, u);
  }

  // ---------------------------------------------------------------------------------------
  // Reservation
  // ---------------------------------------------------------------------------------------

  /** Only quotas, accounts and items change, and every new item holds the estimate in full. */
  ghost predicate OnlyHolds(t: Tables, u: Tables, req: Request) {
    && u.policies == t.policies && u.reservations == t.reservations && u.events == t.events && u.usage == t.usage
    && QuotasKept(t, u) && AccountsKept(t, u) && t.items <= u.items
    && forall j :: |t.items| <= j < |u.items| ==> u.items[j] == HeldItem(req, u.items[j].target)
  }

  lemma OnlyHoldsTransitive(t: Tables, u: Tables, v: Tables, req: Request)
    requires OnlyHolds(t, u, req) && OnlyHolds(u, v, req)
    ensures OnlyHolds(t, v, req)
  {
    forall j | |t.items| <= j < |v.items| ensures v.items[j] == HeldItem(req, v.items[j].target) {
      if j < |u.items| {
        assert v.items[j] == u.items[j];
      }
    }
  }

  lemma DebitScopeHolds(t: Tables, req: Request, scope: Str)
    requires DebitScope(t, req, scope).Commit?
    ensures OnlyHolds(t, DebitScope(t, req, scope).tables, req)
  {
    hide Lower;
  }

  lemma {:induction false} DebitScopesHold(t: Tables, req: Request, scopes: seq<Str>)
    requires DebitScopes(t, req, scopes).Commit?
    ensures OnlyHolds(t, DebitScopes(t, req, scopes).tables, req)
    decreases |scopes|
  {
    if scopes != [] {
      var w := DebitScope(t, req, scopes[0]).tables;
      DebitScopeHolds(t, req, scopes[0]);
      DebitScopesHold(w, req, scopes[1..]);
      OnlyHoldsTransitive(t, w, DebitScopes(t, req, scopes).tables, req);
    }
  }

  lemma DebitBudgetHolds(t: Tables, dir: Directory, req: Request, policy: nat, now: int)
    requires policy < |t.policies| && DebitBudget(t, dir, req, policy, now).Commit?
    ensures OnlyHolds(t, DebitBudget(t, dir, req, policy, now).tables, req)
  {
    hide PeriodBounds;
  }

  lemma {:induction false} DebitBudgetsHold(t: Tables, dir: Directory, req: Request, tenant: int, group: int, now: int,
                                            i: nat)
    requires i <= |t.policies| && DebitBudgets(t, dir, req, tenant, group, now, i).Commit?
    ensures OnlyHolds(t, DebitBudgets(t, dir, req, tenant, group, now, i).tables, req)
    decreases |t.policies| - i
  {
    hide DebitBudget, Covers, QuotasKept, AccountsKept;
    if i == |t.policies| {
      OnlyHoldsReflexive(t, req);
    } else if !Covers(t.policies[i], tenant, group, req) {
      DebitBudgetsHold(t, dir, req, tenant, group, now, i + 1);
    } else {
      var w := DebitBudget(t, dir, req, i, now).tables;
      DebitBudgetHolds(t, dir, req, i, now);
      DebitBudgetsHold(w, dir, req, tenant, group, now, i + 1);
      OnlyHoldsTransitive(t, w, DebitBudgets(t, dir, req, tenant, group, now, i).tables, req);
    }
  }

  lemma OnlyHoldsReflexive(t: Tables, req: Request)
    ensures OnlyHolds(t, t, req)
  {
  }

  /** A reservation that inserts a row leaves everything else but quotas, accounts and its own new items. */
  lemma ReserveEffect(t: Tables, dir: Directory, request: Request, now: int)
    requires ReserveTx(t, dir, request, now).Commit? && Normalized(request).id !in t.reservations
    ensures var req, u := Normalized(request), ReserveTx(t, dir, request, now).tables;
            && req.tenant in dir.tenants
            && ValidRequest(req)
            && OnlyHolds(WithRow(t, req.id, NewRow(req, dir.tenants[req.tenant], now)), u, req)
  {
    hide DebitScopes, DebitBudgets, OnlyHolds, Normalized, ValidRequest, LegacyGroup, ScopesOf, GroupId;
    var req := Normalized(request);
    var tenant := dir.tenants[req.tenant];
    var w := WithRow(t, req.id, NewRow(req, tenant, now));
    var v := DebitScopes(w, req, ScopesOf(req)).tables;
    DebitScopesHold(w, req, ScopesOf(req));
    DebitBudgetsHold(v, dir, req, tenant, GroupId(dir, tenant, req).value, now, 0);
    OnlyHoldsTransitive(w, v, ReserveTx(t, dir, request, now).tables, req);
  }

  lemma ReserveExtends(t: Tables, dir: Directory, request: Request, now: int)
    requires ReserveTx(t, dir, request, now).Commit?
    ensures Extends(t, ReserveTx(t, dir, request, now).tables)
  {
    hide Normalized, ReserveTx, ValidRequest;
    if Normalized(request).id !in t.reservations {
      ReserveEffect(t, dir, request, now);
    } else {
      RepeatedReserve(t, dir, request, now);
    }
  }

  /** A reservation of an existing id changes nothing, and fails for another identity. */
  lemma RepeatedReserve(t: Tables, dir: Directory, request: Request, now: int)
    requires Normalized(request).id in t.reservations
    ensures After(ReserveTx(t, dir, request, now), t) == t
    ensures t.reservations[Normalized(request).id].identity != Normalized(request) ==>
              ReserveTx(t, dir, request, now).Abort?
  {
    hide Normalized, ValidRequest, OwnedByTenant;
  }

  // ---------------------------------------------------------------------------------------
  // Every transaction
  // ---------------------------------------------------------------------------------------

  lemma WithRowExtends(t: Tables, id: Str, r: Reservation)
    requires id in t.reservations && SameIdentity(t.reservations[id], r)
    ensures Extends(t, WithRow(t, id, r))
  {
  }

  lemma MarkUnknownRowExtends(t: Tables, id: Str, reason: Str, now: int)
    requires id in t.reservations
    ensures Extends(t, MarkUnknownRow(t, id, reason, now))
  {
    hide HasUnknownEvent;
  }

  lemma {:induction false} MarkStaleExtends(t: Tables, dir: Directory, ids: seq<Str>, before: int, now: int)
    requires MarkStaleTx(t, dir, ids, before, now).Commit?
    ensures Extends(t, MarkStaleTx(t, dir, ids, before, now).tables)
    decreases |ids|
  {
    hide Extends, MarkUnknownRow;
    if ids == [] {
      ExtendsReflexive(t);
    } else if !Stale(t, ids[0], before) {
      MarkStaleExtends(t, dir, ids[1..], before, now);
    } else {
      var w := MarkUnknownRow(t, ids[0], STALE_REASON, now);
      MarkUnknownRowExtends(t, ids[0], STALE_REASON, now);
      MarkStaleExtends(w, dir, ids[1..], before, now);
      ExtendsTransitive(t, w, MarkStaleTx(t, dir, ids, before, now).tables);
    }
  }

  lemma ResolveExtends(t: Tables, dir: Directory, tenant: int, id: Str, res: Resolution, now: int)
    requires ResolveTx(t, dir, tenant, id, res, now).Commit?
    ensures Extends(t, ResolveTx(t, dir, tenant, id, res, now).tables)
  {
    hide ApplyReservation, ValidResolution, Resolvable, TenantExists;
    var s, status := ResolutionResult(id, res), ResolutionStatus(res.action);
    ApplyReservationEffect(t, id, s, status, now);
    var w, u := ApplyReservation(t, id, s, status, now).tables, ResolveTx(t, dir, tenant, id, res, now).tables;
    assert Extends(w, u);
    ExtendsTransitive(t, w, u);
  }

  lemma PatchExtends(t: Tables, dir: Directory, tenant: int, id: nat, patch: Patch, now: int)
    requires PatchTx(t, dir, tenant, id, patch, now).Commit?
    ensures Extends(t, PatchTx(t, dir, tenant, id, patch, now).tables)
  {
    hide PeriodBounds, Emit;
    var p := Patched(t.policies[id], patch);
    var key := AccountKey(id, PeriodBounds(dir.zones, now, p.period, p.timezone).value.0);
    if key in t.accounts {
      EmitGrows(t.(policies := t.policies[id := p], accounts := t.accounts[key := t.accounts[key].(limit := p.limit)]),
                key, None);
    }
  }

  lemma CreateExtends(t: Tables, dir: Directory, spec: Policy, now: int)
    requires CreateTx(t, dir, spec, now).Commit?
    ensures Extends(t, CreateTx(t, dir, spec, now).tables)
  {
    hide ValidSpec, NormalizedSpec, ScopeOwned;
  }

  lemma TopUpExtends(t: Tables, scope: Str, delta: int, currency: Str)
    requires TopUpTx(t, scope, delta, currency).Commit?
    ensures Extends(t, TopUpTx(t, scope, delta, currency).tables)
  {
    hide Lower, ValidCurrency;
  }

  /** No transaction removes a row, rewrites an identity or an item's origin, or drops an event. */
  lemma NextExtends(t: Tables, step: Step)
    ensures Extends(t, Next(t, step))
  {
    hide ReserveTx, ApplyReservation, MarkStaleTx, ResolveTx, CreateTx, PatchTx, TopUpTx, Extends, MarkUnknownRow,
         ValidSettlement, WithRow;
    ExtendsReflexive(t);
    if Transact(t, step).Commit? {
      match step
      case ReserveStep(dir, req, now) => ReserveExtends(t, dir, req, now);
      case DispatchStep(id, now) =>
        if Next(t, step) != t {
          WithRowExtends(t, id,
                         t.reservations[id].(status := Dispatched, version := t.reservations[id].version + 1,
                                             updatedAt := now));
        }
      case RecordStep(s, now) =>
        if Next(t, step) != t {
          var r := t.reservations[s.id];
          WithRowExtends(t, s.id, r.(result := Some(s), applied := false, version := r.version + 1, updatedAt := now));
        }
      case ApplyStep(dir, id, now) =>
        var r := t.reservations[id];
        if !r.applied {
          ApplyReservationEffect(t, id, r.result.value,
                                 if r.result.value.outcome == NoCharge then Released else Settled, now);
        }
      case UnknownStep(dir, id, reason, now) => MarkUnknownRowExtends(t, id, reason, now);
      case StaleStep(dir, ids, before, now) => MarkStaleExtends(t, dir, ids, before, now);
      case ResolveStep(dir, tenant, id, res, now) => ResolveExtends(t, dir, tenant, id, res, now);
      case CreateStep(dir, spec, now) => CreateExtends(t, dir, spec, now);
      case PatchStep(dir, tenant, policy, patch, now) => PatchExtends(t, dir, tenant, policy, patch, now);
      case TopUpStep(scope, delta, currency) => TopUpExtends(t, scope, delta, currency);
    }
  }

  lemma {:induction false} RunExtends(t: Tables, steps: seq<Step>)
    ensures Extends(t, Run(t, steps))
  {
    hide Extends, Next;
    if steps == [] {
      ExtendsReflexive(t);
    } else {
      var mid := Run(t, steps[..|steps| - 1]);
      RunExtends(t, steps[..|steps| - 1]);
      NextExtends(mid, steps[|steps| - 1]);
      ExtendsTransitive(t, mid, Run(t, steps));
    }
  }
}
