/**
 The repositories as imperative code: each transaction works on a copy of the tables and either
 replaces them or leaves them, and its effect is the one `Transactions` defines.
 */
module Store {
  import opened Text
  import opened Calendar
  import opened Scope
  import opened Tables
  import opened Transactions

  /** The scopes as `Reserve` appends them, before sorting. */
  function AppendedScopes(req: Request): seq<Str> {
    [TENANT_PREFIX + req.tenant]
    + (if req.group != [] then [GroupScope(req.tenant, req.group)] else [])
    + (if req.key != [] then [KEY_PREFIX + req.key] else [])
  }

  /** `ScopesOf` is that list sorted: a strictly ascending permutation of it, so no scope repeats. */
  lemma ScopesAreSorted(req: Request)
    ensures multiset(ScopesOf(req)) == multiset(AppendedScopes(req))
    ensures forall i, j :: 0 <= i < j < |ScopesOf(req)| ==> Less(ScopesOf(req)[i], ScopesOf(req)[j])
  {
    var g, k, t := GroupScope(req.tenant, req.group), KEY_PREFIX + req.key, TENANT_PREFIX + req.tenant;
    FirstByteDecides(g, k);
    FirstByteDecides(g, t);
    FirstByteDecides(k, t);
    var pre := (if req.group != [] then [g] else []) + (if req.key != [] then [k] else []);
    assert ScopesOf(req) == pre + [t];
    assert AppendedScopes(req) == [t] + pre;
    RotateLast(pre, t);
    Chain(pre, g, k, t);
  }

  lemma RotateLast(pre: seq<Str>, t: Str)
    ensures multiset(pre + [t]) == multiset([t] + pre)
  {
  }

  lemma Chain(pre: seq<Str>, g: Str, k: Str, t: Str)
    requires pre == [] || pre == [g] || pre == [k] || pre == [g] + [k]
    requires Less(g, k) && Less(g, t) && Less(k, t)
    ensures forall i, j :: 0 <= i < j < |pre + [t]| ==> Less((pre + [t])[i], (pre + [t])[j])
  {
    hide Less;
  }

  lemma FirstByteDecides(a: Str, b: Str)
    requires |a| > 0 && |b| > 0 && a[0] < b[0]
    ensures Less(a, b)
  {
  }

  /** The quota loop of `Reserve`. */
  method RunDebitScopes(t: Tables, req: Request, scopes: seq<Str>) returns (r: Tx)
    ensures r == DebitScopes(t, req, scopes)
  {
    var tx := t;
    for i := 0 to |scopes|
      invariant DebitScopes(tx, req, scopes[i..]) == DebitScopes(t, req, scopes)
    {
      var scope := scopes[i];
      assert scopes[i..][1..] == scopes[i + 1..];
      if scope !in tx.quotas {
        continue;
      }
      var q := tx.quotas[scope];
      if Lower(q.currency) != req.currency {
        return Abort(CurrencyMismatch);
      }
      if !(q.balance > 0 && q.balance >= req.estimate) {
        return Abort(Insufficient);
      }
      tx := tx.(quotas := tx.quotas[scope := q.(balance := q.balance - req.estimate)]);
      tx := tx.(items := tx.items + [HeldItem(req, OnQuota(scope))]);
    }
    r := Commit(tx);
  }

  /** The policy loop of `Reserve`, in policy-id order. */
  method RunDebitBudgets(t: Tables, dir: Directory, req: Request, tenant: int, group: int, now: int) returns (r: Tx)
    ensures r == DebitBudgets(t, dir, req, tenant, group, now, 0)
  {
    hide PeriodBounds, Covers;
    var tx := t;
    for i := 0 to |t.policies|
      invariant tx.policies == t.policies
      invariant DebitBudgets(tx, dir, req, tenant, group, now, i) == DebitBudgets(t, dir, req, tenant, group, now, 0)
    {
      var p := tx.policies[i];
      if !Covers(p, tenant, group, req) {
        continue;
      }
      if p.currency != req.currency {
        return Abort(CurrencyMismatch);
      }
      var bounds := PeriodBounds(dir.zones, now, p.period, p.timezone);
      if bounds.None? {
        return Abort(InvalidPolicy);
      }
      var (start, end) := bounds.value;
      if end <= start {
        return Abort(CheckViolation);
      }
      var key := AccountKey(i, start);
      var accounts := OpenAccount(tx, key, end, req.currency, p.limit);
      var a := accounts[key];
      if !Admits(p, a, req.estimate) {
        return Abort(Insufficient);
      }
      if !Fits64(a.reserved + req.estimate) {
        return Abort(CheckViolation);
      }
      tx := tx.(accounts := accounts[key := a.(reserved := a.reserved + req.estimate)],
                items := tx.items + [HeldItem(req, OnAccount(key))]);
    }
    r := Commit(tx);
  }

  /** `emitBudgetThresholds`. */
  method RunEmit(t: Tables, key: AccountKey, cause: Option<Str>) returns (events: seq<Event>)
    ensures events == Emit(t, key, cause)
  {
    hide HasThreshold, HasOverspend;
    events := t.events;
    if key !in t.accounts || key.policy >= |t.policies| {
      return;
    }
    var a, percents := t.accounts[key], t.policies[key.policy].thresholds;
    for i := 0 to |percents|
      invariant AddThresholds(events, key, a, percents[i..], cause) == AddThresholds(t.events, key, a, percents, cause)
    {
      assert percents[i..][1..] == percents[i + 1..];
      if a.committed > 0 && a.committed * 100 >= a.limit * percents[i] && !HasThreshold(events, key, percents[i]) {
        events := events + [Threshold(key, percents[i], a.committed, cause)];
      }
    }
    if a.committed > a.limit && !HasOverspend(events, key) {
      events := events + [Overspend(key, a.committed - a.limit, cause)];
    }
  }

  /** The item loop of `applyReservation`. */
  method RunApplyItems(t: Tables, id: Str, s: Settlement, currency: Str) returns (r: Tx)
    ensures r == ApplyItems(t, 0, id, s, currency)
  {
    hide Emit, Lower;
    var tx := t;
    for i := 0 to |t.items|
      invariant |tx.items| == |t.items|
      invariant ApplyItems(tx, i, id, s, currency) == ApplyItems(t, 0, id, s, currency)
    {
      var it := tx.items[i];
      if it.reservation != id {
        continue;
      }
      if it.target.OnQuota? {
        var scope := it.target.scope;
        if scope !in tx.quotas || Lower(tx.quotas[scope].currency) != currency {
          return Abort(CurrencyMismatch);
        }
        var balance := tx.quotas[scope].balance + it.held + it.committed - s.actual;
        if !Fits64(balance) || !Fits64(it.released + Refund(it, s.actual)) {
          return Abort(CheckViolation);
        }
        tx := tx.(quotas := tx.quotas[scope := tx.quotas[scope].(balance := balance)],
                  items := tx.items[i := SettleItem(it, s.actual)]);
      } else {
        var key := it.target.account;
        if key !in tx.accounts {
          return Abort(NotFound);
        }
        var a := tx.accounts[key];
        a := a.(reserved := a.reserved - it.held, committed := a.committed + s.actual - it.committed,
                released := a.released + Refund(it, s.actual));
        if !AccountInRange(a) || !Fits64(it.released + Refund(it, s.actual)) {
          return Abort(CheckViolation);
        }
        var charged := tx.(accounts := tx.accounts[key := a]);
        var events := RunEmit(charged, key, Some(it.reservation));
        tx := charged.(events := events, items := tx.items[i := SettleItem(it, s.actual)]);
      }
    }
    r := Commit(tx);
  }

  /** `applyReservation`: items, then the usage row, the risk event and the reservation row. */
  method RunApplyReservation(t: Tables, id: Str, s: Settlement, status: Status, now: int) returns (r: Tx)
    requires id in t.reservations
    ensures r == ApplyReservation(t, id, s, status, now)
  {
    hide ApplyItems;
    var row := t.reservations[id];
    r := RunApplyItems(t, id, s, row.identity.currency);
    if r.Abort? {
      return;
    }
    var tx := r.tables;
    if s.outcome == Known && s.usage.Some? {
      tx := tx.(usage := tx.usage + [UsageRow(id, s.usage.value)]);
    }
    if s.attemptRisk {
      tx := tx.(events := tx.events + [AttemptRisk(id)]);
    }
    row := row.(status := status, reason := s.reason, version := row.version + 1, updatedAt := now);
    if status == ReleasedUnknown {
      row := row.(actual := None);
    } else {
      row := row.(actual := Some(s.actual), result := Some(s), applied := true);
    }
    tx := tx.(reservations := tx.reservations[id := row]);
    r := Commit(tx);
  }

  /** Only the row of one reservation may differ. */
  ghost predicate OnlyRow(t: Tables, u: Tables, id: Str) {
    u == t.(reservations := u.reservations) && OtherRowsSame(t, u, id)
  }

  ghost predicate OtherRowsSame(t: Tables, u: Tables, id: Str) {
    forall x :: x != id ==>
      (x in u.reservations <==> x in t.reservations) && (x in t.reservations ==> u.reservations[x] == t.reservations[x])
  }

  class Repo {
    var tables: Tables

    constructor ()
      ensures tables == EMPTY
    {
      tables := EMPTY;
    }

    /** All or nothing: an error leaves every table as it was. */
    method Reserve(dir: Directory, request: Request, now: int) returns (err: Option<Error>)
      modifies this
      ensures tables == Next(old(tables), ReserveStep(dir, request, now))
      ensures err == Reply(ReserveTx(old(tables), dir, request, now))
      ensures err.Some? ==> tables == old(tables)
    {
      hide DebitScopes, DebitBudgets, ValidRequest, LegacyGroup, ScopesOf;
      var req := Normalized(request);
      if !ValidRequest(req) {
        return Some(InvalidPolicy);
      }
      if req.tenant !in dir.tenants {
        return Some(NotFound);
      }
      var tenant := dir.tenants[req.tenant];
      if req.id in tables.reservations {
        if tables.reservations[req.id].tenant == tenant && tables.reservations[req.id].identity == req {
          return None;
        }
        return Some(Conflict);
      }
      if !OwnedByTenant(dir, tenant, req) || LegacyGroup(tables, req) {
        return Some(InvalidPolicy);
      }
      var group := GroupId(dir, tenant, req).value;
      var tx := tables.(reservations := tables.reservations[req.id := NewRow(req, tenant, now)]);
      var r := RunDebitScopes(tx, req, ScopesOf(req));
      if r.Commit? {
        r := RunDebitBudgets(r.tables, dir, req, tenant, group, now);
      }
      if r.Abort? {
        return Some(r.error);
      }
      tables := r.tables;
      err := None;
    }

    method MarkDispatched(id: Str, now: int) returns (err: Option<Error>)
      modifies this
      ensures tables == Next(old(tables), DispatchStep(id, now)) && err == Reply(MarkDispatchedTx(old(tables), id, now))
      ensures OnlyRow(old(tables), tables, id)
      ensures err.None? ==>
                id in tables.reservations && tables.reservations[id].status == Dispatched
                && tables.reservations[id].result.None?
    {
      if id in tables.reservations {
        var r := tables.reservations[id];
        if r.status == Reserved && r.result.None? {
          r := r.(status := Dispatched, version := r.version + 1, updatedAt := now);
          tables := tables.(reservations := tables.reservations[id := r]);
          return None;
        }
        if r.status == Dispatched && r.result.None? {
          return None;
        }
        return Some(Conflict);
      }
      err := Some(NotFound);
    }

    method ApplyPending(dir: Directory, id: Str, now: int) returns (err: Option<Error>)
      modifies this
      ensures tables == Next(old(tables), ApplyStep(dir, id, now)) && err == Reply(ApplyTx(old(tables), dir, id, now))
    {
      hide ApplyReservation;
      if id !in tables.reservations || !TenantExists(dir, tables.reservations[id].tenant) {
        return Some(NotFound);
      }
      var row := tables.reservations[id];
      if row.applied {
        return None;
      }
      if row.result.None? {
        return Some(Conflict);
      }
      var s := row.result.value;
      var status := Settled;
      if s.outcome == NoCharge {
        status := Released;
      }
      var r := RunApplyReservation(tables, id, s, status, now);
      if r.Abort? {
        return Some(r.error);
      }
      tables := r.tables;
      err := None;
    }

    method MarkUnknown(dir: Directory, id: Str, reason: Str, now: int) returns (err: Option<Error>)
      modifies this
      ensures tables == Next(old(tables), UnknownStep(dir, id, reason, now))
      ensures err == Reply(MarkUnknownTx(old(tables), dir, id, reason, now))
      ensures OtherRowsSame(old(tables), tables, id) && old(tables).events <= tables.events
      ensures tables == old(tables).(reservations := tables.reservations, events := tables.events)
      ensures err.None? ==>
                id in tables.reservations && tables.reservations[id].status in {Unknown, ReleasedUnknown}
    {
      if id !in tables.reservations || !TenantExists(dir, tables.reservations[id].tenant) {
        return Some(NotFound);
      }
      var row := tables.reservations[id];
      if row.status == Unknown || row.status == ReleasedUnknown {
        return None;
      }
      if (row.status != Reserved && row.status != Dispatched) || row.result.Some? {
        return Some(Conflict);
      }
      tables := MarkUnknownRow(tables, id, reason, now);
      err := None;
    }

    /** Phase one of `Finish`. */
    method RecordResult(s: Settlement, now: int) returns (err: Option<Error>)
      requires ValidSettlement(s) && s.outcome != Uncertain
      modifies this
      ensures tables == Next(old(tables), RecordStep(s, now)) && err == Reply(RecordTx(old(tables), s, now))
      ensures OnlyRow(old(tables), tables, s.id)
      ensures err.None? ==>
                && s.id in old(tables).reservations && s.id in tables.reservations
                && tables.reservations[s.id].result == Some(s)
                && tables.reservations[s.id].status == old(tables).reservations[s.id].status
    {
      if s.id !in tables.reservations {
        return Some(NotFound);
      }
      var row := tables.reservations[s.id];
      if row.result.Some? {
        if row.result.value != s {
          return Some(Conflict);
        }
        return None;
      }
      if row.status == Settled || row.status == Released || (row.status == ReleasedUnknown && s.outcome != Known) {
        return Some(Conflict);
      }
      row := row.(result := Some(s), applied := false, version := row.version + 1, updatedAt := now);
      tables := tables.(reservations := tables.reservations[s.id := row]);
      err := None;
    }

    /** `Finish`: an uncertain outcome marks the row; any other is made durable, then applied. */
    method Finish(dir: Directory, s: Settlement, now: int) returns (err: Option<Error>)
      modifies this
      ensures (tables, err) == Finished(old(tables), dir, s, now)
    {
      hide ApplyReservation;
      if !ValidSettlement(s) {
        return Some(InvalidPolicy);
      }
      if s.outcome == Uncertain {
        err := MarkUnknown(dir, s.id, s.reason, now);
        return;
      }
      err := RecordResult(s, now);
      if err.Some? {
        return;
      }
      err := ApplyPending(dir, s.id, now);
    }

    /** `RetryPending` over the pending ids its query returned, oldest first: every one of the batch is
        tried in its own transaction, and exactly the failures are reported. */
    method RetryPending(dir: Directory, pending: seq<Str>, limit: int, now: int) returns (errs: seq<(Str, Error)>)
      modifies this
      ensures tables == Run(old(tables), ApplySteps(dir, Batch(pending, limit), now))
      ensures errs == Failures(old(tables), dir, Batch(pending, limit), now)
    {
      hide Next, ApplyTx;
      var ids := Batch(pending, limit);
      errs := [];
      for i := 0 to |ids|
        invariant tables == Run(old(tables), ApplySteps(dir, ids[..i], now))
        invariant errs == Failures(old(tables), dir, ids[..i], now)
      {
        assert ids[..i + 1][..i] == ids[..i];
        var err := ApplyPending(dir, ids[i], now);
        if err.Some? {
          errs := errs + [(ids[i], err.value)];
        }
        var steps := ApplySteps(dir, ids[..i + 1], now);
        assert steps[..i] == ApplySteps(dir, ids[..i], now);
      }
      assert ids[..|ids|] == ids;
    }

    method MarkStale(dir: Directory, ids: seq<Str>, before: int, now: int) returns (count: nat, err: Option<Error>)
      modifies this
      ensures tables == Next(old(tables), StaleStep(dir, ids, before, now))
      ensures err == Reply(MarkStaleTx(old(tables), dir, ids, before, now))
      ensures count == if err.None? then StaleCount(old(tables), ids, before, now) else 0
    {
      hide MarkUnknownRow;
      var tx := tables;
      count := 0;
      for i := 0 to |ids|
        invariant MarkStaleTx(tx, dir, ids[i..], before, now) == MarkStaleTx(tables, dir, ids, before, now)
        invariant count + StaleCount(tx, ids[i..], before, now) == StaleCount(tables, ids, before, now)
        invariant tables == old(tables)
      {
        assert ids[i..][1..] == ids[i + 1..];
        if !Stale(tx, ids[i], before) {
          continue;
        }
        if !TenantExists(dir, tx.reservations[ids[i]].tenant) {
          return 0, Some(NotFound);
        }
        tx := MarkUnknownRow(tx, ids[i], STALE_REASON, now);
        count := count + 1;
      }
      tables := tx;
      err := None;
    }

    method Resolve(dir: Directory, tenant: int, id: Str, res: Resolution, now: int) returns (err: Option<Error>)
      modifies this
      ensures tables == Next(old(tables), ResolveStep(dir, tenant, id, res, now))
      ensures err == Reply(ResolveTx(old(tables), dir, tenant, id, res, now))
    {
      hide ApplyReservation, Blank;
      if !ValidResolution(res) {
        return Some(InvalidPolicy);
      }
      if !TenantExists(dir, tenant) || id !in tables.reservations || tables.reservations[id].tenant != tenant {
        return Some(NotFound);
      }
      var row := tables.reservations[id];
      if row.version != res.version || row.result.Some?
         || (row.status != Unknown && (row.status != ReleasedUnknown || res.action != Settle)) {
        return Some(Conflict);
      }
      var s := Settlement(id, NoCharge, 0, res.reason, false, None);
      var status := Released;
      if res.action == Settle {
        s := s.(outcome := Known, actual := res.actual.value);
        status := Settled;
      }
      if res.action == ReleaseUnknown {
        status := ReleasedUnknown;
      }
      var r := RunApplyReservation(tables, id, s, status, now);
      if r.Abort? {
        return Some(r.error);
      }
      tables := r.tables.(events := r.tables.events
                                    + [Resolved(id, res.action, s.actual, res.operator, res.reason, res.evidence)]);
      err := None;
    }

    method Patch(dir: Directory, tenant: int, id: nat, patch: Patch, now: int) returns (err: Option<Error>)
      modifies this
      ensures tables == Next(old(tables), PatchStep(dir, tenant, id, patch, now))
      ensures err == Reply(PatchTx(old(tables), dir, tenant, id, patch, now))
    {
      hide PeriodBounds, Emit;
      if patch.version <= 0 || (patch.limit.Some? && patch.limit.value < 0) {
        return Some(InvalidPolicy);
      }
      if !TenantExists(dir, tenant) || id >= |tables.policies| || tables.policies[id].tenant != tenant {
        return Some(NotFound);
      }
      var p := tables.policies[id];
      if p.version != patch.version {
        return Some(Conflict);
      }
      if patch.limit.Some? {
        p := p.(limit := patch.limit.value);
      }
      if patch.enabled.Some? {
        p := p.(enabled := patch.enabled.value);
      }
      p := p.(version := p.version + 1);
      var tx := tables.(policies := tables.policies[id := p]);
      var bounds := PeriodBounds(dir.zones, now, p.period, p.timezone);
      if bounds.None? {
        return Some(InvalidPolicy);
      }
      var key := AccountKey(id, bounds.value.0);
      if key in tx.accounts {
        tx := tx.(accounts := tx.accounts[key := tx.accounts[key].(limit := p.limit)]);
        var events := RunEmit(tx, key, None);
        tx := tx.(events := events);
      }
      tables := tx;
      err := None;
    }

    method Create(dir: Directory, spec: Policy, now: int) returns (err: Option<Error>)
      modifies this
      ensures tables == Next(old(tables), CreateStep(dir, spec, now))
              && err == Reply(CreateTx(old(tables), dir, spec, now))
      ensures tables == old(tables).(policies := tables.policies)
      ensures err.None? ==>
                && |tables.policies| == |old(tables).policies| + 1 && old(tables).policies <= tables.policies
                && var p := tables.policies[|old(tables).policies|];
                   && p.enabled && p.version == 1 && p.tenant == spec.tenant && p.limit == spec.limit >= 0
                   && ValidThresholds(p.thresholds) && multiset(p.thresholds) == multiset(spec.thresholds)
    {
      hide PeriodBounds, ScopeOwned, Lower, Blank, ValidCurrency, ValidThresholds;
      var p := NormalizedSpec(spec);
      if !ValidSpec(p, dir, now) {
        return Some(InvalidPolicy);
      }
      if !TenantExists(dir, p.tenant) {
        return Some(NotFound);
      }
      if !ScopeOwned(dir, p.tenant, p.scope) {
        return Some(InvalidPolicy);
      }
      tables := tables.(policies := tables.policies + [p]);
      err := None;
    }

    method TopUp(scope: Str, delta: int, cur: Str) returns (err: Option<Error>)
      modifies this
      ensures tables == Next(old(tables), TopUpStep(scope, delta, cur))
              && err == Reply(TopUpTx(old(tables), scope, delta, cur))
      ensures tables == old(tables).(quotas := tables.quotas)
      ensures err.None? ==>
                && tables.quotas.Keys == old(tables).quotas.Keys + {scope}
                && tables.quotas[scope].balance
                == delta + (if scope in old(tables).quotas then old(tables).quotas[scope].balance else 0)
                && forall s :: s in old(tables).quotas && s != scope ==> tables.quotas[s] == old(tables).quotas[s]
    {
      hide ParseGroupScope, Lower, ValidCurrency;
      if GROUP_PREFIX <= scope && ParseGroupScope(scope).None? {
        return Some(InvalidPolicy);
      }
      var currency := Lower(cur);
      if !ValidCurrency(currency) {
        return Some(InvalidPolicy);
      }
      if scope in tables.quotas && Lower(tables.quotas[scope].currency) != currency {
        return Some(CurrencyMismatch);
      }
      var q := if scope in tables.quotas then tables.quotas[scope] else Quota(0, currency);
      if !Fits64(q.balance + delta) {
        return Some(CheckViolation);
      }
      tables := tables.(quotas := tables.quotas[scope := q.(balance := q.balance + delta)]);
      err := None;
    }
  }

  /** The batch a retry takes: 100 by default, at most 1000. */
  function Batch(pending: seq<Str>, limit: int): (ids: seq<Str>)
    ensures ids <= pending && |ids| <= 1000
    ensures |ids| == |pending| || |ids| == (if limit <= 0 then 100 else if limit > 1000 then 1000 else limit)
    ensures limit <= 0 && |pending| <= 100 ==> ids == pending
    ensures 0 < limit && |pending| <= limit <= 1000 ==> ids == pending
  {
    var bound := if limit <= 0 then 100 else if limit > 1000 then 1000 else limit;
    if |pending| <= bound then pending else pending[..bound]
  }

  function ApplySteps(dir: Directory, ids: seq<Str>, now: int): seq<Step> {
    seq(|ids|, i requires 0 <= i < |ids| => ApplyStep(dir, ids[i], now))
  }

  /** The replays that abort, each against the tables its predecessors left. */
  function Failures(t: Tables, dir: Directory, ids: seq<Str>, now: int): seq<(Str, Error)> {
    if ids == [] then []
    else
      var n := |ids| - 1;
      var tx := ApplyTx(Run(t, ApplySteps(dir, ids[..n], now)), dir, ids[n], now);
      Failures(t, dir, ids[..n], now) + if tx.Abort? then [(ids[n], tx.error)] else []
  }

  function StaleCount(t: Tables, ids: seq<Str>, before: int, now: int): nat
    decreases |ids|
  {
    if ids == [] then 0
    else if Stale(t, ids[0], before) then 1 + StaleCount(MarkUnknownRow(t, ids[0], STALE_REASON, now), ids[1..], before,
                                                         now)
    else StaleCount(t, ids[1..], before, now)
  }
}
