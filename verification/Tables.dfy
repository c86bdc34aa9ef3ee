/**
 The accounting tables (`internal/store/migrations/00031_period_spend_control.sql`).

 Rows that the code addresses by a generated id and reads back in id order (policies, items,
 events, usage rows) are sequences whose index is the id; the others are maps on their key. An
 account is addressed by its unique key (policy, period start).
 */
module Tables {
  import opened Text
  import opened Calendar

  datatype Mode = Soft | Enforce

  /** What a budget covers. Entity references are ids in canonical decimal form, so the id stands
      for the stored string. */
  datatype BudgetScope =
    | TenantWide
    | OfGroup(group: int)
    | OfApplication(app: int)
    | OfApplicationEnv(app: int, env: Str)
    | OfKey(key: Str)

  datatype Policy = Policy(
    tenant: int, name: Str, scope: BudgetScope, period: Period, timezone: Str, currency: Str,
    limit: int, mode: Mode, thresholds: seq<int>, enabled: bool, version: int)

  datatype Quota = Quota(balance: int, currency: Str)

  datatype AccountKey = AccountKey(policy: nat, start: int)

  datatype Account = Account(
    end: int, currency: Str, limit: int, reserved: int, committed: int, released: int)

  /** `ReservationRequest`: the identity, currency, estimate and prices frozen before dispatch. */
  datatype Request = Request(
    id: Str, requestId: Str, tenant: Str, group: Str, key: Str, app: Option<int>, env: Str,
    currency: Str, estimate: int, prices: Str)

  datatype UsageRecord = UsageRecord(
    provider: Str, endpoint: Str, currency: Str, requestId: Str,
    prompt: int, completion: int, cached: int, cost: int, discount: int)

  /** Settlement outcomes "known", "released" and "unknown". */
  datatype Outcome = Known | NoCharge | Uncertain

  datatype Settlement = Settlement(
    id: Str, outcome: Outcome, actual: int, reason: Str, attemptRisk: bool, usage: Option<UsageRecord>)

  datatype Status = Reserved | Dispatched | Unknown | Settled | Released | ReleasedUnknown

  datatype Reservation = Reservation(
    tenant: int, identity: Request, status: Status, actual: Option<int>, reason: Str, version: int,
    result: Option<Settlement>, applied: bool, updatedAt: int)

  /** An item draws on a quota scope or on a budget account. */
  datatype Target = OnQuota(scope: Str) | OnAccount(account: AccountKey)

  datatype Item = Item(
    reservation: Str, target: Target, reserved: int, held: int, committed: int, released: int)

  datatype Action = Settle | Release | ReleaseUnknown

  datatype Event =
    | Threshold(account: AccountKey, percent: int, amount: int, cause: Option<Str>)
    | Overspend(account: AccountKey, amount: int, cause: Option<Str>)
    | UnknownCharge(reservation: Str, reason: Str)
    | AttemptRisk(reservation: Str)
    | Resolved(reservation: Str, action: Action, amount: int, operator: int, reason: Str, evidence: Str)

  /** A usage row, tagged with the reservation whose settlement inserted it. */
  datatype UsageRow = UsageRow(reservation: Str, record: UsageRecord)

  datatype Tables = Tables(
    policies: seq<Policy>,
    quotas: map<Str, Quota>,
    accounts: map<AccountKey, Account>,
    reservations: map<Str, Reservation>,
    items: seq<Item>,
    events: seq<Event>,
    usage: seq<UsageRow>)

  const EMPTY := Tables([], map[], map[], map[], [], [], [])

  /** The management tables a transaction reads but never writes, and the zone database. */
  datatype Directory = Directory(
    tenants: map<Str, int>, groups: map<(int, Str), int>, apps: set<(int, int)>, keys: set<(int, Str)>,
    zones: map<Str, Zone>)

  datatype Error = NotFound | Conflict | InvalidPolicy | Insufficient | CurrencyMismatch | CheckViolation

  /** The end of a transaction: the new tables, or an error that leaves the old ones in place. */
  datatype Tx = Commit(tables: Tables) | Abort(error: Error)

  function After(tx: Tx, before: Tables): Tables {
    if tx.Commit? then tx.tables else before
  }

  function Reply(tx: Tx): Option<Error> {
    if tx.Commit? then None else Some(tx.error)
  }
}
