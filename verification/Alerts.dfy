/**
 Threshold and overspend events: in every reachable state each crossed threshold has its event,
 and no event is there twice.
 */
module Alerts {
  import opened Text
  import opened Calendar
  import opened Tables
  import opened Transactions
  import opened History
  import opened Conservation
  import opened Lifecycle
  import opened SpendBound

  /** Every threshold the account crosses, and its overspend if any, has an event. */
  ghost predicate Alerted(t: Tables, a: AccountKey)
    requires a in t.accounts && a.policy < |t.policies|
  {
    && (forall p :: p in t.policies[a.policy].thresholds && Crosses(t.accounts[a], p) ==> HasThreshold(t.events, a, p))
    && (t.accounts[a].committed > t.accounts[a].limit ==> HasOverspend(t.events, a))
  }

  ghost predicate AllAlerted(t: Tables) {
    && (forall i :: 0 <= i < |t.policies| ==> t.policies[i].limit >= 0)
    && (forall a :: a in t.accounts ==> a.policy < |t.policies| && Alerted(t, a))
  }

  lemma HasGrows(events: seq<Event>, more: seq<Event>, a: AccountKey, p: int)
    requires events <= more
    ensures HasThreshold(events, a, p) ==> HasThreshold(more, a, p)
    ensures HasOverspend(events, a) ==> HasOverspend(more, a)
  {
    if HasThreshold(events, a, p) {
      var i :| 0 <= i < |events| && events[i].Threshold? && events[i].account == a && events[i].percent == p;
      assert more[i] == events[i];
    }
    if HasOverspend(events, a) {
      var i :| 0 <= i < |events| && events[i].Overspend? && events[i].account == a;
      assert more[i] == events[i];
    }
  }

  lemma HasLast(events: seq<Event>, e: Event)
    ensures e.Threshold? ==> HasThreshold(events + [e], e.account, e.percent)
    ensures e.Overspend? ==> HasOverspend(events + [e], e.account)
  {
    assert (events + [e])[|events|] == e;
  }

  lemma {:induction false} AddThresholdsComplete(events: seq<Event>, key: AccountKey, a: Account, percents: seq<int>,
                                                 cause: Option<Str>, p: int)
    requires p in percents && Crosses(a, p)
    ensures HasThreshold(AddThresholds(events, key, a, percents, cause), key, p)
    decreases |percents|
  {
    hide HasThreshold, Crosses;
    var next := AddThreshold(events, key, a, percents[0], cause);
    if p == percents[0] {
      HasLast(events, Threshold(key, p, a.committed, cause));
      AddThresholdsGrows(next, key, a, percents[1..], cause);
      HasGrows(next, AddThresholds(events, key, a, percents, cause), key, p);
    } else {
      AddThresholdsComplete(next, key, a, percents[1..], cause, p);
    }
  }

  /** After `emitBudgetThresholds` the account is alerted, whatever it was before. */
  lemma EmitAlerts(t: Tables, key: AccountKey, cause: Option<Str>)
    requires key in t.accounts && key.policy < |t.policies|
    ensures Alerted(t.(events := Emit(t, key, cause)), key)
  {
    hide HasThreshold, HasOverspend, Crosses, AddThresholds;
    var a, percents := t.accounts[key], t.policies[key.policy].thresholds;
    var mid, all := AddThresholds(t.events, key, a, percents, cause), Emit(t, key, cause);
    forall p | p in percents && Crosses(a, p) ensures HasThreshold(all, key, p) {
      AddThresholdsComplete(t.events, key, a, percents, cause, p);
      HasGrows(mid, all, key, p);
    }
    HasLast(mid, Overspend(key, a.committed - a.limit, cause));
  }

  /** The event reports a limit the account stands across, with the amount it stands at. */
  predicate Warranted(t: Tables, key: AccountKey, cause: Option<Str>, e: Event)
    requires key in t.accounts && key.policy < |t.policies|
  {
    var a := t.accounts[key];
    || (e.Threshold? && e == Threshold(key, e.percent, a.committed, cause)
        && e.percent in t.policies[key.policy].thresholds
        && a.committed > 0 && 100 * a.committed >= a.limit * e.percent)
    || (e == Overspend(key, a.committed - a.limit, cause) && a.committed > a.limit)
  }

  lemma {:induction false} AddThresholdsSound(t: Tables, events: seq<Event>, key: AccountKey, percents: seq<int>,
                                              cause: Option<Str>)
    requires key in t.accounts && key.policy < |t.policies|
    requires forall p :: p in percents ==> p in t.policies[key.policy].thresholds
    ensures var all := AddThresholds(events, key, t.accounts[key], percents, cause);
            events <= all && forall i :: |events| <= i < |all| ==> Warranted(t, key, cause, all[i])
    decreases |percents|
  {
    hide HasThreshold;
    if percents != [] {
      var next := AddThreshold(events, key, t.accounts[key], percents[0], cause);
      AddThresholdsSound(t, next, key, percents[1..], cause);
    }
  }

  /** `emitBudgetThresholds` keeps the events there are and adds only warranted ones. */
  lemma EmitIsSound(t: Tables, key: AccountKey, cause: Option<Str>)
    requires key in t.accounts && key.policy < |t.policies|
    ensures var all := Emit(t, key, cause);
            t.events <= all && forall i :: |t.events| <= i < |all| ==> Warranted(t, key, cause, all[i])
  {
    hide HasOverspend, Crosses;
    AddThresholdsSound(t, t.events, key, t.policies[key.policy].thresholds, cause);
  }

  /** An account none of whose counters, limit or thresholds changed stays alerted. */
  lemma AlertedKept(t: Tables, u: Tables, a: AccountKey)
    requires a in t.accounts && a.policy < |t.policies| && Alerted(t, a)
    requires a in u.accounts && a.policy < |u.policies| && t.events <= u.events
    requires u.policies[a.policy].thresholds == t.policies[a.policy].thresholds
    requires u.accounts[a].committed == t.accounts[a].committed && u.accounts[a].limit == t.accounts[a].limit
    ensures Alerted(u, a)
  {
    hide HasThreshold, HasOverspend;
    forall p | p in u.policies[a.policy].thresholds && Crosses(u.accounts[a], p) ensures HasThreshold(u.events, a, p) {
      HasGrows(t.events, u.events, a, p);
    }
    HasGrows(t.events, u.events, a, 0);
  }

  lemma AllAlertedKept(t: Tables, u: Tables)
    requires AllAlerted(t) && u.policies == t.policies && u.accounts == t.accounts && t.events <= u.events
    ensures AllAlerted(u)
  {
    hide Alerted;
    forall a | a in u.accounts ensures a.policy < |u.policies| && Alerted(u, a) {
      AlertedKept(t, u, a);
    }
  }

  lemma ApplyItemAlerts(t: Tables, i: nat, s: Settlement, currency: Str)
    requires AllAlerted(t) && i < |t.items| && ApplyItem(t, i, s, currency).Commit?
    ensures AllAlerted(ApplyItem(t, i, s, currency).tables)
  {
    hide Lower, Emit, Alerted, Extends;
    var u, it := ApplyItem(t, i, s, currency).tables, t.items[i];
    ApplyItemGrows(t, i, s, currency);
    match it.target
    case OnQuota(scope) => AllAlertedKept(t, u);
    case OnAccount(key) =>
      var charged := t.(accounts := t.accounts[key := SettleAccount(t.accounts[key], it, s.actual)]);
      EmitAlerts(charged, key, Some(it.reservation));
      AlertedFrame(charged.(events := u.events), u, key);
      forall a | a in u.accounts ensures a.policy < |u.policies| && Alerted(u, a) {
        if a != key {
          AlertedKept(t, u, a);
        }
      }
  }

  lemma ApplyItemGrows(t: Tables, i: nat, s: Settlement, currency: Str)
    requires i < |t.items| && ApplyItem(t, i, s, currency).Commit?
    ensures t.events <= ApplyItem(t, i, s, currency).tables.events
  {
    hide ApplyItem;
    ApplyItemExtends(t, i, s, currency);
  }

  lemma AlertedFrame(t: Tables, u: Tables, a: AccountKey)
    requires u.policies == t.policies && u.accounts == t.accounts && u.events == t.events
    requires a in t.accounts && a.policy < |t.policies| && Alerted(t, a)
    ensures Alerted(u, a)
  {
  }

  lemma {:induction false} ApplyItemsAlert(t: Tables, i: nat, id: Str, s: Settlement, currency: Str)
    requires AllAlerted(t) && i <= |t.items| && ApplyItems(t, i, id, s, currency).Commit?
    ensures AllAlerted(ApplyItems(t, i, id, s, currency).tables)
    decreases |t.items| - i
  {
    hide AllAlerted;
    if i < |t.items| {
      if t.items[i].reservation != id {
        ApplyItemsAlert(t, i + 1, id, s, currency);
      } else {
        ApplyItemAlerts(t, i, s, currency);
        ApplyItemsAlert(ApplyItem(t, i, s, currency).tables, i + 1, id, s, currency);
      }
    }
  }

  lemma ApplyReservationAlerts(t: Tables, id: Str, s: Settlement, status: Status, now: int)
    requires AllAlerted(t) && id in t.reservations && ApplyReservation(t, id, s, status, now).Commit?
    ensures AllAlerted(ApplyReservation(t, id, s, status, now).tables)
  {
    hide AllAlerted, ApplyItems;
    var c := t.reservations[id].identity.currency;
    ApplyItemsAlert(t, 0, id, s, c);
    AllAlertedKept(ApplyItems(t, 0, id, s, c).tables, ApplyReservation(t, id, s, status, now).tables);
  }

  // ---------------------------------------------------------------------------------------
  // Reservation
  // ---------------------------------------------------------------------------------------

  lemma DebitBudgetAlerts(t: Tables, dir: Directory, req: Request, policy: nat, now: int)
    requires AllAlerted(t) && policy < |t.policies| && DebitBudget(t, dir, req, policy, now).Commit?
    ensures AllAlerted(DebitBudget(t, dir, req, policy, now).tables)
  {
    hide PeriodBounds, HasThreshold, HasOverspend;
    var u := DebitBudget(t, dir, req, policy, now).tables;
    forall a | a in u.accounts ensures a.policy < |u.policies| && Alerted(u, a) {
      if a in t.accounts {
        AlertedKept(t, u, a);
      }
    }
  }

  lemma {:induction false} DebitBudgetsAlert(t: Tables, dir: Directory, req: Request, tenant: int, group: int, now: int,
                                             i: nat)
    requires AllAlerted(t) && i <= |t.policies| && DebitBudgets(t, dir, req, tenant, group, now, i).Commit?
    ensures AllAlerted(DebitBudgets(t, dir, req, tenant, group, now, i).tables)
    decreases |t.policies| - i
  {
    hide AllAlerted, DebitBudget, Covers, QuotasKept, AccountsKept;
    if i < |t.policies| {
      if Covers(t.policies[i], tenant, group, req) {
        DebitBudgetAlerts(t, dir, req, i, now);
        DebitBudgetHolds(t, dir, req, i, now);
        DebitBudgetsAlert(DebitBudget(t, dir, req, i, now).tables, dir, req, tenant, group, now, i + 1);
      } else {
        DebitBudgetsAlert(t, dir, req, tenant, group, now, i + 1);
      }
    }
  }

  lemma ReserveAlerts(t: Tables, dir: Directory, request: Request, now: int)
    requires AllAlerted(t) && ReserveTx(t, dir, request, now).Commit?
    ensures AllAlerted(ReserveTx(t, dir, request, now).tables)
  {
    hide DebitScopes, DebitBudgets, Normalized, ValidRequest, LegacyGroup, ScopesOf, GroupId, AllAlerted, QuotasKept,
         AccountsKept, Covered, Drawn;
    var req := Normalized(request);
    if req.id !in t.reservations {
      var tenant := dir.tenants[req.tenant];
      var w := WithRow(t, req.id, NewRow(req, tenant, now));
      var v := DebitScopes(w, req, ScopesOf(req)).tables;
      DebitScopesHold(w, req, ScopesOf(req));
      DebitScopesKeepAccounts(w, req, ScopesOf(req));
      AllAlertedKept(t, v);
      DebitBudgetsAlert(v, dir, req, tenant, GroupId(dir, tenant, req).value, now, 0);
    }
  }

  lemma {:induction false} DebitScopesKeepAccounts(t: Tables, req: Request, scopes: seq<Str>)
    requires DebitScopes(t, req, scopes).Commit?
    ensures DebitScopes(t, req, scopes).tables.accounts == t.accounts
    decreases |scopes|
  {
    hide Lower;
    if scopes != [] {
      DebitScopesKeepAccounts(DebitScope(t, req, scopes[0]).tables, req, scopes[1..]);
    }
  }

  // ---------------------------------------------------------------------------------------
  // Every transaction, every run
  // ---------------------------------------------------------------------------------------

  lemma PatchAlerts(t: Tables, dir: Directory, tenant: int, id: nat, patch: Patch, now: int)
    requires AllAlerted(t) && PatchTx(t, dir, tenant, id, patch, now).Commit?
    ensures AllAlerted(PatchTx(t, dir, tenant, id, patch, now).tables)
  {
    hide PeriodBounds, Emit, Alerted;
    var u, p := PatchTx(t, dir, tenant, id, patch, now).tables, Patched(t.policies[id], patch);
    var key := AccountKey(id, PeriodBounds(dir.zones, now, p.period, p.timezone).value.0);
    if key in t.accounts {
      var v := t.(policies := t.policies[id := p], accounts := t.accounts[key := t.accounts[key].(limit := p.limit)]);
      EmitGrows(v, key, None);
      EmitAlerts(v, key, None);
    }
    forall a | a in u.accounts ensures a.policy < |u.policies| && Alerted(u, a) {
      if a != key {
        AlertedKept(t, u, a);
      }
    }
  }

  lemma CreateAlerts(t: Tables, dir: Directory, spec: Policy, now: int)
    requires AllAlerted(t) && CreateTx(t, dir, spec, now).Commit?
    ensures AllAlerted(CreateTx(t, dir, spec, now).tables)
  {
    hide NormalizedSpec, ScopeOwned, PeriodBounds, ValidCurrency, ValidThresholds, Alerted;
    var u := CreateTx(t, dir, spec, now).tables;
    forall a | a in u.accounts ensures a.policy < |u.policies| && Alerted(u, a) {
      AlertedKept(t, u, a);
    }
  }

  lemma {:induction false} MarkStaleKeepsPolicies(t: Tables, dir: Directory, ids: seq<Str>, before: int, now: int)
    requires MarkStaleTx(t, dir, ids, before, now).Commit?
    ensures MarkStaleTx(t, dir, ids, before, now).tables.policies == t.policies
    decreases |ids|
  {
    if ids != [] {
      MarkStaleKeepsPolicies(if Stale(t, ids[0], before) then MarkUnknownRow(t, ids[0], STALE_REASON, now) else t, dir,
                             ids[1..], before, now);
    }
  }

  lemma NextAlerts(t: Tables, step: Step)
    requires AllAlerted(t)
    ensures AllAlerted(Next(t, step))
  {
    hide ReserveTx, ApplyReservation, MarkStaleTx, PatchTx, CreateTx, ValidSettlement, AllAlerted, ValidResolution,
         Resolvable, HasUnknownEvent, Lower, ValidCurrency;
    var u := Next(t, step);
    if Transact(t, step).Commit? {
      match step
      case ReserveStep(dir, req, now) => ReserveAlerts(t, dir, req, now);
      case ApplyStep(dir, id, now) =>
        var r := t.reservations[id];
        if !r.applied {
          ApplyReservationAlerts(t, id, r.result.value,
                                 if r.result.value.outcome == NoCharge then Released else Settled, now);
        }
      case ResolveStep(dir, tenant, id, res, now) =>
        var s, status := ResolutionResult(id, res), ResolutionStatus(res.action);
        ApplyReservationAlerts(t, id, s, status, now);
        AllAlertedKept(ApplyReservation(t, id, s, status, now).tables, u);
      case StaleStep(dir, ids, before, now) =>
        MarkStaleMovesNoMoney(t, dir, ids, before, now);
        MarkStaleKeepsPolicies(t, dir, ids, before, now);
        StaleGrows(t, dir, ids, before, now);
        AllAlertedKept(t, u);
      case PatchStep(dir, tenant, policy, patch, now) => PatchAlerts(t, dir, tenant, policy, patch, now);
      case CreateStep(dir, spec, now) => CreateAlerts(t, dir, spec, now);
      case _ => AllAlertedKept(t, u);
    }
  }

  lemma StaleGrows(t: Tables, dir: Directory, ids: seq<Str>, before: int, now: int)
    requires MarkStaleTx(t, dir, ids, before, now).Commit?
    ensures t.events <= MarkStaleTx(t, dir, ids, before, now).tables.events
  {
    hide MarkStaleTx;
    MarkStaleExtends(t, dir, ids, before, now);
  }

  /** In every reachable state, limit patches included, no crossed threshold is without its event. */
  lemma RunAlerts(steps: seq<Step>, a: AccountKey, percent: int)
    requires a in Run(EMPTY, steps).accounts
    ensures var t := Run(EMPTY, steps);
            && a.policy < |t.policies|
            && (percent in t.policies[a.policy].thresholds
                && t.accounts[a].committed > 0 && 100 * t.accounts[a].committed >= t.accounts[a].limit * percent ==>
                  exists i :: 0 <= i < |t.events| && t.events[i].Threshold? && t.events[i].account == a
                              && t.events[i].percent == percent)
            && (t.accounts[a].committed > t.accounts[a].limit ==>
                  exists i :: 0 <= i < |t.events| && t.events[i].Overspend? && t.events[i].account == a)
  {
    hide Run;
    RunKeepsAlerted(steps);
  }

  lemma {:induction false} RunKeepsAlerted(steps: seq<Step>)
    ensures AllAlerted(Run(EMPTY, steps))
  {
    hide Next, AllAlerted;
    if steps == [] {
      EmptyAlerted();
    } else {
      RunKeepsAlerted(steps[..|steps| - 1]);
      NextAlerts(Run(EMPTY, steps[..|steps| - 1]), steps[|steps| - 1]);
    }
  }

  lemma EmptyAlerted()
    ensures AllAlerted(EMPTY)
  {
  }

  // ---------------------------------------------------------------------------------------
  // Events are unique
  // ---------------------------------------------------------------------------------------

  predicate SameAlert(e: Event, f: Event) {
    || (e.Threshold? && f.Threshold? && e.account == f.account && e.percent == f.percent)
    || (e.Overspend? && f.Overspend? && e.account == f.account)
  }

  ghost predicate UniqueAlerts(events: seq<Event>) {
    forall i, j :: 0 <= i < j < |events| ==> !SameAlert(events[i], events[j])
  }

  lemma {:induction false} AddThresholdsUnique(events: seq<Event>, key: AccountKey, a: Account, percents: seq<int>,
                                               cause: Option<Str>)
    requires UniqueAlerts(events)
    ensures UniqueAlerts(AddThresholds(events, key, a, percents, cause))
    decreases |percents|
  {
    hide Crosses;
    if percents != [] {
      AddThresholdsUnique(AddThreshold(events, key, a, percents[0], cause), key, a, percents[1..], cause);
    }
  }

  /** `emitBudgetThresholds` inserts nothing twice. */
  lemma EmitUnique(t: Tables, key: AccountKey, cause: Option<Str>)
    requires UniqueAlerts(t.events)
    ensures UniqueAlerts(Emit(t, key, cause))
  {
    if key in t.accounts && key.policy < |t.policies| {
      AddThresholdsUnique(t.events, key, t.accounts[key], t.policies[key.policy].thresholds, cause);
    }
  }

  /** Events of the other kinds never clash. */
  lemma OtherEventsUnique(events: seq<Event>, more: seq<Event>)
    requires UniqueAlerts(events)
    requires forall e :: e in more ==> !e.Threshold? && !e.Overspend?
    ensures UniqueAlerts(events + more)
  {
  }

  lemma ApplyItemUnique(t: Tables, i: nat, s: Settlement, currency: Str)
    requires UniqueAlerts(t.events) && i < |t.items| && ApplyItem(t, i, s, currency).Commit?
    ensures UniqueAlerts(ApplyItem(t, i, s, currency).tables.events)
  {
    hide Lower, Emit, UniqueAlerts;
    var it := t.items[i];
    if it.target.OnAccount? {
      var key := it.target.account;
      EmitUnique(t.(accounts := t.accounts[key := SettleAccount(t.accounts[key], it, s.actual)]), key,
                 Some(it.reservation));
    }
  }

  lemma {:induction false} ApplyItemsUnique(t: Tables, i: nat, id: Str, s: Settlement, currency: Str)
    requires UniqueAlerts(t.events) && i <= |t.items| && ApplyItems(t, i, id, s, currency).Commit?
    ensures UniqueAlerts(ApplyItems(t, i, id, s, currency).tables.events)
    decreases |t.items| - i
  {
    hide UniqueAlerts;
    if i < |t.items| {
      if t.items[i].reservation != id {
        ApplyItemsUnique(t, i + 1, id, s, currency);
      } else {
        ApplyItemUnique(t, i, s, currency);
        ApplyItemsUnique(ApplyItem(t, i, s, currency).tables, i + 1, id, s, currency);
      }
    }
  }

  lemma ApplyReservationUnique(t: Tables, id: Str, s: Settlement, status: Status, now: int)
    requires UniqueAlerts(t.events) && id in t.reservations && ApplyReservation(t, id, s, status, now).Commit?
    ensures UniqueAlerts(ApplyReservation(t, id, s, status, now).tables.events)
  {
    hide UniqueAlerts, ApplyItems;
    var c := t.reservations[id].identity.currency;
    ApplyItemsUnique(t, 0, id, s, c);
    OtherEventsUnique(ApplyItems(t, 0, id, s, c).tables.events, RiskOf(id, s));
  }

  lemma {:induction false} MarkStaleUnique(t: Tables, dir: Directory, ids: seq<Str>, before: int, now: int)
    requires UniqueAlerts(t.events) && MarkStaleTx(t, dir, ids, before, now).Commit?
    ensures UniqueAlerts(MarkStaleTx(t, dir, ids, before, now).tables.events)
    decreases |ids|
  {
    hide UniqueAlerts, HasUnknownEvent;
    if ids != [] {
      if Stale(t, ids[0], before) {
        OtherEventsUnique(t.events, [UnknownCharge(ids[0], STALE_REASON)]);
        MarkStaleUnique(MarkUnknownRow(t, ids[0], STALE_REASON, now), dir, ids[1..], before, now);
      } else {
        MarkStaleUnique(t, dir, ids[1..], before, now);
      }
    }
  }

  lemma PatchUnique(t: Tables, dir: Directory, tenant: int, id: nat, patch: Patch, now: int)
    requires UniqueAlerts(t.events) && PatchTx(t, dir, tenant, id, patch, now).Commit?
    ensures UniqueAlerts(PatchTx(t, dir, tenant, id, patch, now).tables.events)
  {
    hide PeriodBounds, Emit, UniqueAlerts;
    var p := Patched(t.policies[id], patch);
    var key := AccountKey(id, PeriodBounds(dir.zones, now, p.period, p.timezone).value.0);
    if key in t.accounts {
      EmitUnique(t.(policies := t.policies[id := p], accounts := t.accounts[key := t.accounts[key].(limit := p.limit)]),
                 key, None);
    }
  }

  lemma ReserveAddsNoEvent(t: Tables, dir: Directory, request: Request, now: int)
    requires ReserveTx(t, dir, request, now).Commit?
    ensures ReserveTx(t, dir, request, now).tables.events == t.events
  {
    hide ReserveTx, Normalized, ValidRequest;
    if Normalized(request).id in t.reservations {
      RepeatedReserve(t, dir, request, now);
    } else {
      ReserveEffect(t, dir, request, now);
    }
  }

  lemma NextUnique(t: Tables, step: Step)
    requires UniqueAlerts(t.events)
    ensures UniqueAlerts(Next(t, step).events)
  {
    hide ReserveTx, ApplyReservation, MarkStaleTx, PatchTx, ValidSettlement, UniqueAlerts, ValidResolution, Resolvable,
         HasUnknownEvent, Lower, ValidCurrency, ValidSpec, NormalizedSpec, ScopeOwned;
    if Transact(t, step).Commit? {
      match step
      case ReserveStep(dir, req, now) => ReserveAddsNoEvent(t, dir, req, now);
      case ApplyStep(dir, id, now) =>
        var r := t.reservations[id];
        if !r.applied {
          ApplyReservationUnique(t, id, r.result.value,
                                 if r.result.value.outcome == NoCharge then Released else Settled, now);
        }
      case UnknownStep(dir, id, reason, now) => OtherEventsUnique(t.events, [UnknownCharge(id, reason)]);
      case StaleStep(dir, ids, before, now) => MarkStaleUnique(t, dir, ids, before, now);
      case ResolveStep(dir, tenant, id, res, now) =>
        var s, status := ResolutionResult(id, res), ResolutionStatus(res.action);
        ApplyReservationUnique(t, id, s, status, now);
        OtherEventsUnique(ApplyReservation(t, id, s, status, now).tables.events,
                          [Resolved(id, res.action, s.actual, res.operator, res.reason, res.evidence)]);
      case PatchStep(dir, tenant, policy, patch, now) => PatchUnique(t, dir, tenant, policy, patch, now);
      case _ =>
    }
  }

  /** In every reachable state each threshold and each overspend was reported at most once. */
  lemma {:induction false} RunUnique(steps: seq<Step>)
    ensures UniqueAlerts(Run(EMPTY, steps).events)
  {
    hide Next, UniqueAlerts;
    if steps == [] {
      OtherEventsUniqueEmpty();
    } else {
      RunUnique(steps[..|steps| - 1]);
      NextUnique(Run(EMPTY, steps[..|steps| - 1]), steps[|steps| - 1]);
    }
  }

  lemma OtherEventsUniqueEmpty()
    ensures UniqueAlerts([])
  {
  }
}
