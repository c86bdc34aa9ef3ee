/**
 What each transaction of `internal/store/accounting.go`, `internal/store/budget.go` and
 `QuotaRepo.TopUp` does to the tables. The imperative forms are in `Store`.
 */
module Transactions {
  import opened Text
  import opened Calendar
  import opened Scope
  import opened Tables

  // ---------------------------------------------------------------------------------------
  // Validation
  // ---------------------------------------------------------------------------------------

  predicate ValidCurrency(c: Str) {
    |c| == 3 && forall i :: 0 <= i < 3 ==> 97 <= c[i] <= 122
  }

  /** "{}", stored for a request without prices. */
  const NO_PRICES: Str := [123, 125]

  function Normalized(req: Request): Request {
    req.(currency := Lower(req.currency), prices := if req.prices == [] then NO_PRICES else req.prices)
  }

  predicate ValidRequest(req: Request) {
    req.id != [] && req.tenant != [] && req.estimate >= 0 && ValidCurrency(req.currency)
  }

  predicate ValidSettlement(s: Settlement) {
    s.id != [] && s.actual >= 0 && (s.outcome == Known || (s.actual == 0 && s.usage == None))
  }

  // ---------------------------------------------------------------------------------------
  // Reserve
  // ---------------------------------------------------------------------------------------

  const TENANT_PREFIX: Str := [116, 101, 110, 97, 110, 116, 58]
  const KEY_PREFIX: Str := [107, 101, 121, 58]

  /** The quota scopes of a request in `sort.Strings` order: group, key, tenant. */
  function ScopesOf(req: Request): seq<Str> {
    (if req.group != [] then [GroupScope(req.tenant, req.group)] else [])
    + (if req.key != [] then [KEY_PREFIX + req.key] else [])
    + [TENANT_PREFIX + req.tenant]
  }

  function HeldItem(req: Request, target: Target): Item {
    Item(req.id, target, req.estimate, req.estimate, 0, 0)
  }

  function DebitScope(t: Tables, req: Request, scope: Str): Tx {
    if scope !in t.quotas then Commit(t)
    else
      var q := t.quotas[scope];
      if Lower(q.currency) != req.currency then Abort(CurrencyMismatch)
      else if !(q.balance > 0 && q.balance >= req.estimate) then Abort(Insufficient)
      else Commit(t.(quotas := t.quotas[scope := q.(balance := q.balance - req.estimate)],
                     items := t.items + [HeldItem(req, OnQuota(scope))]))
  }

  function DebitScopes(t: Tables, req: Request, scopes: seq<Str>): Tx
    decreases |scopes|
  {
    if scopes == [] then Commit(t)
    else
      var tx := DebitScope(t, req, scopes[0]);
      if tx.Abort? then tx else DebitScopes(tx.tables, req, scopes[1..])
  }

  predicate Covers(p: Policy, tenant: int, group: int, req: Request) {
    && p.tenant == tenant && p.enabled
    && match p.scope
       case TenantWide => true
       case OfGroup(g) => g == group
       case OfApplication(a) => a == AppId(req)
       case OfApplicationEnv(a, e) => a == AppId(req) && e == req.env
       case OfKey(k) => k == req.key && req.key != []
  }

  function AppId(req: Request): int {
    if req.app.Some? then req.app.value else 0
  }

  predicate Admits(p: Policy, a: Account, estimate: int) {
    p.mode == Soft || (a.limit - a.committed - a.reserved > 0 && a.limit - a.committed - a.reserved >= estimate)
  }

  function OpenAccount(t: Tables, key: AccountKey, end: int, currency: Str, limit: int): map<AccountKey, Account> {
    if key in t.accounts then t.accounts
    else t.accounts[key := Account(end, currency, limit, 0, 0, 0)]
  }

  function DebitBudget(t: Tables, dir: Directory, req: Request, policy: nat, now: int): Tx
    requires policy < |t.policies|
  {
    var p := t.policies[policy];
    if p.currency != req.currency then Abort(CurrencyMismatch)
    else
      var bounds := PeriodBounds(dir.zones, now, p.period, p.timezone);
      if bounds.None? then Abort(InvalidPolicy)
      else if bounds.value.1 <= bounds.value.0 then Abort(CheckViolation)
      else
        var key := AccountKey(policy, bounds.value.0);
        var accounts := OpenAccount(t, key, bounds.value.1, req.currency, p.limit);
        var a := accounts[key];
        if !Admits(p, a, req.estimate) then Abort(Insufficient)
        else if !Fits64(a.reserved + req.estimate) then Abort(CheckViolation)
        else Commit(t.(accounts := accounts[key := a.(reserved := a.reserved + req.estimate)],
                       items := t.items + [HeldItem(req, OnAccount(key))]))
  }

  function DebitBudgets(t: Tables, dir: Directory, req: Request, tenant: int, group: int, now: int, i: nat): Tx
    requires i <= |t.policies|
    decreases |t.policies| - i
  {
    if i == |t.policies| then Commit(t)
    else if !Covers(t.policies[i], tenant, group, req) then DebitBudgets(t, dir, req, tenant, group, now, i + 1)
    else
      var tx := DebitBudget(t, dir, req, i, now);
      if tx.Abort? then tx else DebitBudgets(tx.tables, dir, req, tenant, group, now, i + 1)
  }

  /** The group row of the request, or `None` when a named group is not the tenant's. */
  function GroupId(dir: Directory, tenant: int, req: Request): Option<int> {
    if req.group == [] then Some(0)
    else if (tenant, req.group) in dir.groups then Some(dir.groups[(tenant, req.group)])
    else None
  }

  predicate OwnedByTenant(dir: Directory, tenant: int, req: Request) {
    && GroupId(dir, tenant, req).Some?
    && (req.app.Some? ==> (tenant, req.app.value) in dir.apps)
    && (req.key != [] ==> (tenant, req.key) in dir.keys)
  }

  /** A quota row under the unqualified group name, which has no trustworthy tenant. */
  predicate LegacyGroup(t: Tables, req: Request) {
    req.group != [] && GROUP_PREFIX + req.group in t.quotas
  }

  function NewRow(req: Request, tenant: int, now: int): Reservation {
    Reservation(tenant, req, Reserved, None, [], 1, None, false, now)
  }

  function ReserveTx(t: Tables, dir: Directory, request: Request, now: int): Tx {
    var req := Normalized(request);
    if !ValidRequest(req) then Abort(InvalidPolicy)
    else if req.tenant !in dir.tenants then Abort(NotFound)
    else
      var tenant := dir.tenants[req.tenant];
      if req.id in t.reservations then
        if t.reservations[req.id].tenant == tenant && t.reservations[req.id].identity == req then Commit(t)
        else Abort(Conflict)
      else if !OwnedByTenant(dir, tenant, req) || LegacyGroup(t, req) then Abort(InvalidPolicy)
      else
        var inserted := t.(reservations := t.reservations[req.id := NewRow(req, tenant, now)]);
        var tx := DebitScopes(inserted, req, ScopesOf(req));
        if tx.Abort? then tx
        else DebitBudgets(tx.tables, dir, req, tenant, GroupId(dir, tenant, req).value, now, 0)
  }

  // ---------------------------------------------------------------------------------------
  // Threshold and overspend events
  // ---------------------------------------------------------------------------------------

  predicate HasThreshold(events: seq<Event>, a: AccountKey, percent: int) {
    exists i :: 0 <= i < |events| && events[i].Threshold? && events[i].account == a && events[i].percent == percent
  }

  predicate HasOverspend(events: seq<Event>, a: AccountKey) {
    exists i :: 0 <= i < |events| && events[i].Overspend? && events[i].account == a
  }

  predicate Crosses(a: Account, percent: int) {
    a.committed > 0 && a.committed * 100 >= a.limit * percent
  }

  function AddThreshold(events: seq<Event>, key: AccountKey, a: Account, percent: int, cause: Option<Str>): seq<Event> {
    if Crosses(a, percent) && !HasThreshold(events, key, percent)
    then events + [Threshold(key, percent, a.committed, cause)] else events
  }

  function AddThresholds(events: seq<Event>, key: AccountKey, a: Account, percents: seq<int>, cause: Option<Str>)
    : seq<Event>
    decreases |percents|
  {
    if percents == [] then events
    else AddThresholds(AddThreshold(events, key, a, percents[0], cause), key, a, percents[1..], cause)
  }

  function AddOverspend(events: seq<Event>, key: AccountKey, a: Account, cause: Option<Str>): seq<Event> {
    if a.committed > a.limit && !HasOverspend(events, key)
    then events + [Overspend(key, a.committed - a.limit, cause)] else events
  }

  /** `emitBudgetThresholds`: insert what the account now crosses, unless already present. */
  function Emit(t: Tables, key: AccountKey, cause: Option<Str>): seq<Event> {
    if key !in t.accounts || key.policy >= |t.policies| then t.events
    else
      var a := t.accounts[key];
      AddOverspend(AddThresholds(t.events, key, a, t.policies[key.policy].thresholds, cause), key, a, cause)
  }

  // ---------------------------------------------------------------------------------------
  // Settlement
  // ---------------------------------------------------------------------------------------

  function Refund(it: Item, actual: int): int {
    Max(it.held + it.committed - actual, 0)
  }

  function SettleItem(it: Item, actual: int): Item {
    it.(held := 0, committed := actual, released := it.released + Refund(it, actual))
  }

  function SettleQuota(q: Quota, it: Item, actual: int): Quota {
    q.(balance := q.balance + it.held + it.committed - actual)
  }

  function SettleAccount(a: Account, it: Item, actual: int): Account {
    a.(reserved := a.reserved - it.held, committed := a.committed + actual - it.committed,
       released := a.released + Refund(it, actual))
  }

  /** The column ranges and CHECK constraints of an account row. */
  predicate AccountInRange(a: Account) {
    0 <= a.reserved <= MAX_INT64 && 0 <= a.committed <= MAX_INT64 && 0 <= a.released <= MAX_INT64
  }

  /** One pass of the item loop in `applyReservation`. */
  function ApplyItem(t: Tables, i: nat, s: Settlement, currency: Str): Tx
    requires i < |t.items|
  {
    var it := t.items[i];
    var items := t.items[i := SettleItem(it, s.actual)];
    match it.target
    case OnQuota(scope) =>
      if scope !in t.quotas || Lower(t.quotas[scope].currency) != currency then Abort(CurrencyMismatch)
      else if !Fits64(SettleQuota(t.quotas[scope], it, s.actual).balance) then Abort(CheckViolation)
      else if !Fits64(SettleItem(it, s.actual).released) then Abort(CheckViolation)
      else Commit(t.(quotas := t.quotas[scope := SettleQuota(t.quotas[scope], it, s.actual)], items := items))
    case OnAccount(key) =>
      if key !in t.accounts then Abort(NotFound)
      else if !AccountInRange(SettleAccount(t.accounts[key], it, s.actual)) then Abort(CheckViolation)
      else if !Fits64(SettleItem(it, s.actual).released) then Abort(CheckViolation)
      else
        var charged := t.(accounts := t.accounts[key := SettleAccount(t.accounts[key], it, s.actual)]);
        Commit(charged.(events := Emit(charged, key, Some(it.reservation)), items := items))
  }

  /** The item loop from row `i` on. Rows of a reservation were inserted group, key, tenant, then by
      policy id, which is the order settlement reads them in. */
  function ApplyItems(t: Tables, i: nat, id: Str, s: Settlement, currency: Str): Tx
    requires i <= |t.items|
    decreases |t.items| - i
  {
    if i == |t.items| then Commit(t)
    else if t.items[i].reservation != id then ApplyItems(t, i + 1, id, s, currency)
    else
      var tx := ApplyItem(t, i, s, currency);
      if tx.Abort? then tx else ApplyItems(tx.tables, i + 1, id, s, currency)
  }

  function SettledRow(r: Reservation, s: Settlement, status: Status, now: int): Reservation {
    if status == ReleasedUnknown then
      r.(status := status, actual := None, reason := s.reason, version := r.version + 1, updatedAt := now)
    else
      r.(status := status, actual := Some(s.actual), reason := s.reason, result := Some(s), applied := true,
         version := r.version + 1, updatedAt := now)
  }

  function UsageOf(id: Str, s: Settlement): seq<UsageRow> {
    if s.outcome == Known && s.usage.Some? then [UsageRow(id, s.usage.value)] else []
  }

  function RiskOf(id: Str, s: Settlement): seq<Event> {
    if s.attemptRisk then [AttemptRisk(id)] else []
  }

  function ApplyReservation(t: Tables, id: Str, s: Settlement, status: Status, now: int): Tx
    requires id in t.reservations
  {
    var r := t.reservations[id];
    var tx := ApplyItems(t, 0, id, s, r.identity.currency);
    if tx.Abort? then tx
    else
      var u := tx.tables;
      Commit(u.(usage := u.usage + UsageOf(id, s), events := u.events + RiskOf(id, s),
                reservations := u.reservations[id := SettledRow(r, s, status, now)]))
  }

  predicate TenantExists(dir: Directory, tenant: int) {
    tenant in dir.tenants.Values
  }

  // ---------------------------------------------------------------------------------------
  // The reservation life cycle
  // ---------------------------------------------------------------------------------------

  function WithRow(t: Tables, id: Str, r: Reservation): Tables {
    t.(reservations := t.reservations[id := r])
  }

  function MarkDispatchedTx(t: Tables, id: Str, now: int): Tx {
    if id !in t.reservations then Abort(NotFound)
    else
      var r := t.reservations[id];
      if r.status == Reserved && r.result.None? then
        Commit(WithRow(t, id, r.(status := Dispatched, version := r.version + 1, updatedAt := now)))
      else if r.status == Dispatched && r.result.None? then Commit(t)
      else Abort(Conflict)
  }

  /** Phase one of `Finish`: make the result durable. */
  function RecordTx(t: Tables, s: Settlement, now: int): Tx {
    if s.id !in t.reservations then Abort(NotFound)
    else
      var r := t.reservations[s.id];
      if r.result.Some? then (if r.result.value == s then Commit(t) else Abort(Conflict))
      else if r.status == Settled || r.status == Released || (r.status == ReleasedUnknown && s.outcome != Known)
      then Abort(Conflict)
      else Commit(WithRow(t, s.id, r.(result := Some(s), applied := false, version := r.version + 1, updatedAt := now)))
  }

  /** Phase two of `Finish`, also run by `RetryPending`: apply the durable result. */
  function ApplyTx(t: Tables, dir: Directory, id: Str, now: int): Tx {
    if id !in t.reservations || !TenantExists(dir, t.reservations[id].tenant) then Abort(NotFound)
    else
      var r := t.reservations[id];
      if r.applied then Commit(t)
      else if r.result.None? then Abort(Conflict)
      else ApplyReservation(t, id, r.result.value, if r.result.value.outcome == NoCharge then Released else Settled,
                            now)
  }

  predicate HasUnknownEvent(events: seq<Event>, id: Str) {
    exists i :: 0 <= i < |events| && events[i].UnknownCharge? && events[i].reservation == id
  }

  function MarkUnknownRow(t: Tables, id: Str, reason: Str, now: int): Tables
    requires id in t.reservations
  {
    var r := t.reservations[id];
    var events := if HasUnknownEvent(t.events, id) then t.events else t.events + [UnknownCharge(id, reason)];
    WithRow(t, id,
            r.(status := Unknown, reason := reason, version := r.version + 1, updatedAt := now)).(events := events)
  }

  predicate AwaitsResult(r: Reservation) {
    (r.status == Reserved || r.status == Dispatched) && r.result.None?
  }

  function MarkUnknownTx(t: Tables, dir: Directory, id: Str, reason: Str, now: int): Tx {
    if id !in t.reservations || !TenantExists(dir, t.reservations[id].tenant) then Abort(NotFound)
    else
      var r := t.reservations[id];
      if r.status == Unknown || r.status == ReleasedUnknown then Commit(t)
      else if !AwaitsResult(r) then Abort(Conflict)
      else Commit(MarkUnknownRow(t, id, reason, now))
  }

  /** `Finish`: an uncertain outcome marks the row; any other is made durable first and applied after. */
  function Finished(t: Tables, dir: Directory, s: Settlement, now: int): (Tables, Option<Error>) {
    if !ValidSettlement(s) then (t, Some(InvalidPolicy))
    else if s.outcome == Uncertain then
      var tx := MarkUnknownTx(t, dir, s.id, s.reason, now);
      (After(tx, t), Reply(tx))
    else
      var recorded := RecordTx(t, s, now);
      if recorded.Abort? then (t, Reply(recorded))
      else
        var tx := ApplyTx(recorded.tables, dir, s.id, now);
        (After(tx, recorded.tables), Reply(tx))
  }

  /** "stale reservation: charge unknown" */
  const STALE_REASON: Str := [
    115, 116, 97, 108, 101, 32, 114, 101, 115, 101, 114, 118, 97, 116, 105, 111,
    110, 58, 32, 99, 104, 97, 114, 103, 101, 32, 117, 110, 107, 110, 111, 119, 110]

  predicate Stale(t: Tables, id: Str, before: int) {
    id in t.reservations && AwaitsResult(t.reservations[id]) && t.reservations[id].updatedAt < before
  }

  /** `MarkStale` over the rows its queries returned: the batch limit and rows locked by others
      decide which stale rows those are, so any list of ids is allowed. */
  function MarkStaleTx(t: Tables, dir: Directory, ids: seq<Str>, before: int, now: int): Tx
    decreases |ids|
  {
    if ids == [] then Commit(t)
    else if !Stale(t, ids[0], before) then MarkStaleTx(t, dir, ids[1..], before, now)
    else if !TenantExists(dir, t.reservations[ids[0]].tenant) then Abort(NotFound)
    else MarkStaleTx(MarkUnknownRow(t, ids[0], STALE_REASON, now), dir, ids[1..], before, now)
  }

  // ---------------------------------------------------------------------------------------
  // Operators
  // ---------------------------------------------------------------------------------------

  datatype Resolution = Resolution(version: int, action: Action, actual: Option<int>, reason: Str, evidence: Str,
                                   operator: int)

  predicate ValidResolution(res: Resolution) {
    && res.version > 0 && res.operator > 0 && !Blank(res.reason) && !Blank(res.evidence)
    && (res.action == Settle <==> res.actual.Some?)
    && (res.actual.Some? ==> res.actual.value >= 0)
  }

  function ResolutionResult(id: Str, res: Resolution): Settlement
    requires ValidResolution(res)
  {
    if res.action == Settle then Settlement(id, Known, res.actual.value, res.reason, false, None)
    else Settlement(id, NoCharge, 0, res.reason, false, None)
  }

  function ResolutionStatus(action: Action): Status {
    match action case Settle => Settled case Release => Released case ReleaseUnknown => ReleasedUnknown
  }

  predicate Resolvable(r: Reservation, res: Resolution) {
    && r.version == res.version && r.result.None?
    && (r.status == Unknown || (r.status == ReleasedUnknown && res.action == Settle))
  }

  function ResolveTx(t: Tables, dir: Directory, tenant: int, id: Str, res: Resolution, now: int): Tx {
    if !ValidResolution(res) then Abort(InvalidPolicy)
    else if !TenantExists(dir, tenant) then Abort(NotFound)
    else if id !in t.reservations || t.reservations[id].tenant != tenant then Abort(NotFound)
    else if !Resolvable(t.reservations[id], res) then Abort(Conflict)
    else
      var s := ResolutionResult(id, res);
      var tx := ApplyReservation(t, id, s, ResolutionStatus(res.action), now);
      if tx.Abort? then tx
      else Commit(tx.tables.(events := tx.tables.events
                             + [Resolved(id, res.action, s.actual, res.operator, res.reason, res.evidence)]))
  }

  /** Thresholds are distinct percentages in ascending order. */
  predicate ValidThresholds(percents: seq<int>) {
    && (forall i :: 0 <= i < |percents| ==> 1 <= percents[i] <= 100)
    && (forall i, j :: 0 <= i < j < |percents| ==> percents[i] < percents[j])
  }

  const ENVIRONMENTS: set<Str> := {[100, 101, 118], [115, 116, 97, 103, 105, 110, 103], [112, 114, 111, 100]}

  predicate ScopeOwned(dir: Directory, tenant: int, scope: BudgetScope) {
    match scope
    case TenantWide => true
    case OfGroup(g) => g > 0 && exists name :: name in dir.groups && name.0 == tenant && dir.groups[name] == g
    case OfApplication(a) => a > 0 && (tenant, a) in dir.apps
    case OfApplicationEnv(a, e) => a > 0 && (tenant, a) in dir.apps
    case OfKey(k) => (tenant, k) in dir.keys
  }

  /** `validateBudgetSpec` names the time zone, normalizes the currency and sorts the thresholds. */
  function NormalizedSpec(spec: Policy): Policy {
    spec.(timezone := if spec.timezone == [] then UTC_NAME else spec.timezone,
          currency := Lower(spec.currency), thresholds := SortInts(spec.thresholds), enabled := true, version := 1)
  }

  const MAX_NAME := 200

  predicate ValidSpec(p: Policy, dir: Directory, now: int) {
    && !Blank(p.name) && |p.name| <= MAX_NAME
    && p.limit >= 0 && ValidCurrency(p.currency) && ValidThresholds(p.thresholds)
    && PeriodBounds(dir.zones, now, p.period, p.timezone).Some?
    && (p.scope.OfApplicationEnv? ==> p.scope.env in ENVIRONMENTS)
  }

  function CreateTx(t: Tables, dir: Directory, spec: Policy, now: int): Tx {
    var p := NormalizedSpec(spec);
    if !ValidSpec(p, dir, now) then Abort(InvalidPolicy)
    else if !TenantExists(dir, p.tenant) then Abort(NotFound)
    else if !ScopeOwned(dir, p.tenant, p.scope) then Abort(InvalidPolicy)
    else Commit(t.(policies := t.policies + [p]))
  }

  datatype Patch = Patch(version: int, limit: Option<int>, enabled: Option<bool>)

  function Patched(p: Policy, patch: Patch): Policy {
    p.(limit := if patch.limit.Some? then patch.limit.value else p.limit,
       enabled := if patch.enabled.Some? then patch.enabled.value else p.enabled,
       version := p.version + 1)
  }

  /** `Patch`: the policy row and the account of the period containing `now`, never another period's. */
  function PatchTx(t: Tables, dir: Directory, tenant: int, id: nat, patch: Patch, now: int): Tx {
    if patch.version <= 0 || (patch.limit.Some? && patch.limit.value < 0) then Abort(InvalidPolicy)
    else if !TenantExists(dir, tenant) then Abort(NotFound)
    else if id >= |t.policies| || t.policies[id].tenant != tenant then Abort(NotFound)
    else if t.policies[id].version != patch.version then Abort(Conflict)
    else
      var p := Patched(t.policies[id], patch);
      var bounds := PeriodBounds(dir.zones, now, p.period, p.timezone);
      if bounds.None? then Abort(InvalidPolicy)
      else
        var u := t.(policies := t.policies[id := p]);
        var key := AccountKey(id, bounds.value.0);
        if key !in u.accounts then Commit(u)
        else
          var v := u.(accounts := u.accounts[key := u.accounts[key].(limit := p.limit)]);
          Commit(v.(events := Emit(v, key, None)))
  }

  /** `QuotaRepo.TopUp`: add to a scope's balance, creating the row when absent. */
  function TopUpTx(t: Tables, scope: Str, delta: int, cur: Str): Tx {
    var currency := Lower(cur);
    if GROUP_PREFIX <= scope && ParseGroupScope(scope).None? then Abort(InvalidPolicy)
    else if !ValidCurrency(currency) then Abort(InvalidPolicy)
    else if scope !in t.quotas then
      if !Fits64(delta) then Abort(CheckViolation)
      else Commit(t.(quotas := t.quotas[scope := Quota(delta, currency)]))
    else if Lower(t.quotas[scope].currency) != currency then Abort(CurrencyMismatch)
    else if !Fits64(t.quotas[scope].balance + delta) then Abort(CheckViolation)
    else Commit(t.(quotas := t.quotas[scope := t.quotas[scope].(balance := t.quotas[scope].balance + delta)]))
  }

  // ---------------------------------------------------------------------------------------
  // Runs
  // ---------------------------------------------------------------------------------------

  /** One transaction of one client. Directories and clocks are free at every step. */
  datatype Step =
    | ReserveStep(dir: Directory, req: Request, now: int)
    | DispatchStep(id: Str, now: int)
    | RecordStep(result: Settlement, now: int)
    | ApplyStep(dir: Directory, id: Str, now: int)
    | UnknownStep(dir: Directory, id: Str, reason: Str, now: int)
    | StaleStep(dir: Directory, ids: seq<Str>, before: int, now: int)
    | ResolveStep(dir: Directory, tenant: int, id: Str, res: Resolution, now: int)
    | CreateStep(dir: Directory, spec: Policy, now: int)
    | PatchStep(dir: Directory, tenant: int, policy: nat, patch: Patch, now: int)
    | TopUpStep(scope: Str, delta: int, currency: Str)

  function Transact(t: Tables, step: Step): Tx {
    match step
    case ReserveStep(dir, req, now) => ReserveTx(t, dir, req, now)
    case DispatchStep(id, now) => MarkDispatchedTx(t, id, now)
    case RecordStep(s, now) => if ValidSettlement(s)
    && s.outcome != Uncertain then RecordTx(t, s, now) else Abort(InvalidPolicy)
    case ApplyStep(dir, id, now) => ApplyTx(t, dir, id, now)
    case UnknownStep(dir, id, reason, now) => MarkUnknownTx(t, dir, id, reason, now)
    case StaleStep(dir, ids, before, now) => MarkStaleTx(t, dir, ids, before, now)
    case ResolveStep(dir, tenant, id, res, now) => ResolveTx(t, dir, tenant, id, res, now)
    case CreateStep(dir, spec, now) => CreateTx(t, dir, spec, now)
    case PatchStep(dir, tenant, policy, patch, now) => PatchTx(t, dir, tenant, policy, patch, now)
    case TopUpStep(scope, delta, currency) => TopUpTx(t, scope, delta, currency)
  }

  function Next(t: Tables, step: Step): Tables {
    After(Transact(t, step), t)
  }

  /** The tables after any interleaving of transactions. A crash is a step that never comes. */
  function Run(t: Tables, steps: seq<Step>): Tables {
    if steps == [] then t else Next(Run(t, steps[..|steps| - 1]), steps[|steps| - 1])
  }
}
