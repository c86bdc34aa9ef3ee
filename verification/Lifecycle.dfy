/**
 The reservation state machine: what each status says about the row, its items and its usage rows,
 in every reachable state; and what a reservation can never do again.
 */
module Lifecycle {
  import opened Text
  import opened Calendar
  import opened Tables
  import opened Transactions
  import opened History
  import opened Conservation

  predicate Open(s: Status) {
    s == Reserved || s == Dispatched || s == Unknown
  }

  predicate Final(s: Status) {
    s == Settled || s == Released
  }

  predicate GoodResult(id: Str, s: Settlement) {
    s.id == id && ValidSettlement(s) && s.outcome != Uncertain
  }

  /** Settled and released mean a result is present and applied; a pending result can only wait in the
      other statuses, and after a risk release only a known charge can be pending. */
  predicate RowOk(id: Str, r: Reservation) {
    && r.version >= 1 && id != []
    && r.identity.id == id && r.identity.estimate >= 0
    && (Final(r.status) <==> r.applied)
    && (r.result.Some? ==> GoodResult(id, r.result.value))
    && (r.applied ==> r.result.Some? && r.actual == Some(r.result.value.actual)
                      && (r.status == Released <==> r.result.value.outcome == NoCharge))
    && (!r.applied ==> r.actual == None)
    && (r.status == ReleasedUnknown && r.result.Some? ==> r.result.value.outcome == Known)
  }

  /** Funds are held in full exactly while the status is open, and spent exactly as recorded. */
  predicate ItemOk(it: Item, r: Reservation) {
    && it.reserved == r.identity.estimate
    && (Open(r.status) ==> it.held == it.reserved && it.committed == 0 && it.released == 0)
    && (r.status == ReleasedUnknown ==> it.held == 0 && it.committed == 0 && it.released == it.reserved)
    && (Final(r.status) ==>
          && it.held == 0 && r.actual == Some(it.committed)
          && (it.released == Max(it.reserved - it.committed, 0) || it.released == it.reserved))
  }

  ghost predicate RowsOk(t: Tables) {
    forall id :: id in t.reservations ==> RowOk(id, t.reservations[id])
  }

  ghost predicate ItemsOk(t: Tables) {
    forall i :: 0 <= i < |t.items| ==>
      t.items[i].reservation in t.reservations && ItemOk(t.items[i], t.reservations[t.items[i].reservation])
  }

  /** Usage rows inserted for one reservation. */
  function UsageFor(usage: seq<UsageRow>, id: Str): seq<UsageRecord> {
    if usage == [] then []
    else
      var last := usage[|usage| - 1];
      UsageFor(usage[..|usage| - 1], id) + if last.reservation == id then [last.record] else []
  }

  /** The usage rows an applied result stands for: one when it is known and carries usage. */
  function ReceiptOf(t: Tables, id: Str): seq<UsageRecord> {
    if id in t.reservations && t.reservations[id].applied && t.reservations[id].result.Some?
       && t.reservations[id].result.value.outcome == Known && t.reservations[id].result.value.usage.Some?
    then [t.reservations[id].result.value.usage.value] else []
  }

  ghost predicate ReceiptsOk(t: Tables) {
    forall id :: UsageFor(t.usage, id) == ReceiptOf(t, id)
  }

  ghost predicate Inv(t: Tables) {
    Books(t) && Linked(t) && RowsOk(t) && ItemsOk(t) && ReceiptsOk(t)
  }

  // ---------------------------------------------------------------------------------------
  // Transactions that only change a row
  // ---------------------------------------------------------------------------------------

  lemma WithRowOk(t: Tables, id: Str, r: Reservation)
    requires RowsOk(t) && ItemsOk(t) && ReceiptsOk(t)
    requires id in t.reservations && RowOk(id, r)
    requires r.identity == t.reservations[id].identity
    requires !r.applied && !t.reservations[id].applied
    requires Open(r.status) == Open(t.reservations[id].status)
    ensures RowsOk(WithRow(t, id, r)) && ItemsOk(WithRow(t, id, r)) && ReceiptsOk(WithRow(t, id, r))
  {
    var u := WithRow(t, id, r);
    forall i | 0 <= i < |u.items|
      ensures u.items[i].reservation in u.reservations && ItemOk(u.items[i], u.reservations[u.items[i].reservation]) {
      assert ItemOk(t.items[i], t.reservations[t.items[i].reservation]);
    }
    forall x ensures UsageFor(u.usage, x) == ReceiptOf(u, x) {
      assert UsageFor(t.usage, x) == ReceiptOf(t, x);
    }
  }

  lemma EventsOk(t: Tables, u: Tables)
    requires RowsOk(t) && ItemsOk(t) && ReceiptsOk(t)
    requires u.reservations == t.reservations && u.items == t.items && u.usage == t.usage
    ensures RowsOk(u) && ItemsOk(u) && ReceiptsOk(u)
  {
    forall x ensures UsageFor(u.usage, x) == ReceiptOf(u, x) {
      assert UsageFor(t.usage, x) == ReceiptOf(t, x);
    }
  }

  lemma MarkUnknownRowOk(t: Tables, id: Str, reason: Str, now: int)
    requires RowsOk(t) && ItemsOk(t) && ReceiptsOk(t)
    requires id in t.reservations && AwaitsResult(t.reservations[id])
    ensures var u := MarkUnknownRow(t, id, reason, now); RowsOk(u) && ItemsOk(u) && ReceiptsOk(u)
  {
    hide RowsOk, ItemsOk, ReceiptsOk, HasUnknownEvent;
    var r := t.reservations[id];
    var q := r.(status := Unknown, reason := reason, version := r.version + 1, updatedAt := now);
    assert RowOk(id, r) by { RowIsOk(t, id); }
    WithRowOk(t, id, q);
    EventsOk(WithRow(t, id, q), MarkUnknownRow(t, id, reason, now));
  }

  lemma RowIsOk(t: Tables, id: Str)
    requires RowsOk(t) && id in t.reservations
    ensures RowOk(id, t.reservations[id])
  {
  }

  lemma {:induction false} MarkStaleOk(t: Tables, dir: Directory, ids: seq<Str>, before: int, now: int)
    requires RowsOk(t) && ItemsOk(t) && ReceiptsOk(t) && MarkStaleTx(t, dir, ids, before, now).Commit?
    ensures var u := MarkStaleTx(t, dir, ids, before, now).tables; RowsOk(u) && ItemsOk(u) && ReceiptsOk(u)
    decreases |ids|
  {
    hide RowsOk, ItemsOk, ReceiptsOk, MarkUnknownRow;
    if ids != [] {
      if Stale(t, ids[0], before) {
        MarkUnknownRowOk(t, ids[0], STALE_REASON, now);
        MarkStaleOk(MarkUnknownRow(t, ids[0], STALE_REASON, now), dir, ids[1..], before, now);
      } else {
        MarkStaleOk(t, dir, ids[1..], before, now);
      }
    }
  }

  // ---------------------------------------------------------------------------------------
  // Settlement
  // ---------------------------------------------------------------------------------------

  /** The statuses `applyReservation` may be asked for, given the row it starts from. */
  predicate MaySettle(r: Reservation, s: Settlement, status: Status) {
    && !r.applied && ValidSettlement(s) && s.outcome != Uncertain
    && match status
       case Settled => s.outcome == Known
       case Released => s.outcome == NoCharge
       case ReleasedUnknown => Open(r.status) && s.actual == 0 && s.outcome == NoCharge && r.result.None?
       case _ => false
  }

  lemma SettledItemOk(it: Item, r: Reservation, s: Settlement, status: Status, now: int)
    requires ItemOk(it, r) && RowOk(s.id, r) && MaySettle(r, s, status)
    ensures ItemOk(SettleItem(it, s.actual), SettledRow(r, s, status, now))
    ensures RowOk(s.id, SettledRow(r, s, status, now))
  {
  }

  lemma UsageForAppend(usage: seq<UsageRow>, row: UsageRow, x: Str)
    ensures UsageFor(usage + [row], x) == UsageFor(usage, x) + if row.reservation == x then [row.record] else []
  {
    assert (usage + [row])[..|usage|] == usage;
  }

  lemma SettlementReceipts(t: Tables, u: Tables, id: Str, s: Settlement, status: Status, now: int)
    requires ReceiptsOk(t) && id in t.reservations && MaySettle(t.reservations[id], s, status)
    requires u.usage == t.usage + UsageOf(id, s)
    requires u.reservations == t.reservations[id := SettledRow(t.reservations[id], s, status, now)]
    ensures ReceiptsOk(u)
  {
    forall x ensures UsageFor(u.usage, x) == ReceiptOf(u, x) {
      assert UsageFor(t.usage, x) == ReceiptOf(t, x);
      if s.outcome == Known && s.usage.Some? {
        UsageForAppend(t.usage, UsageRow(id, s.usage.value), x);
      } else {
        assert u.usage == t.usage;
      }
    }
  }

  lemma ApplyReservationOk(t: Tables, id: Str, s: Settlement, status: Status, now: int)
    requires RowsOk(t) && ItemsOk(t) && ReceiptsOk(t)
    requires id in t.reservations && s.id == id && MaySettle(t.reservations[id], s, status)
    requires ApplyReservation(t, id, s, status, now).Commit?
    ensures var u := ApplyReservation(t, id, s, status, now).tables; RowsOk(u) && ItemsOk(u) && ReceiptsOk(u)
  {
    hide ApplyReservation, Extends, RowOk, ItemOk, SettledRow, UsageOf, MaySettle;
    var u, r := ApplyReservation(t, id, s, status, now).tables, t.reservations[id];
    ApplyReservationEffect(t, id, s, status, now);
    forall i | 0 <= i < |u.items|
      ensures u.items[i].reservation in u.reservations && ItemOk(u.items[i], u.reservations[u.items[i].reservation]) {
      if t.items[i].reservation == id {
        SettledItemOk(t.items[i], r, s, status, now);
      }
    }
    assert RowOk(id, SettledRow(r, s, status, now)) by { SettledRowOk(id, r, s, status, now); }
    SettlementReceipts(t, u, id, s, status, now);
  }

  lemma SettledRowOk(id: Str, r: Reservation, s: Settlement, status: Status, now: int)
    requires RowOk(id, r) && s.id == id && MaySettle(r, s, status)
    ensures RowOk(id, SettledRow(r, s, status, now))
  {
  }

  // ---------------------------------------------------------------------------------------
  // Reservation
  // ---------------------------------------------------------------------------------------

  lemma ReserveOk(t: Tables, dir: Directory, request: Request, now: int)
    requires Linked(t) && RowsOk(t) && ItemsOk(t) && ReceiptsOk(t) && ReserveTx(t, dir, request, now).Commit?
    ensures var u := ReserveTx(t, dir, request, now).tables; RowsOk(u) && ItemsOk(u) && ReceiptsOk(u)
  {
    hide ReserveTx, Normalized, ItemOk, RowOk, Linked;
    var req, u := Normalized(request), ReserveTx(t, dir, request, now).tables;
    if req.id in t.reservations {
      RepeatedReserve(t, dir, request, now);
    } else {
      ReserveEffect(t, dir, request, now);
      var row := NewRow(req, dir.tenants[req.tenant], now);
      assert RowOk(req.id, row) by { NewRowOk(req, dir.tenants[req.tenant], now, OnQuota([])); }
      forall i | 0 <= i < |u.items|
        ensures u.items[i].reservation in u.reservations && ItemOk(u.items[i], u.reservations[u.items[i].reservation]) {
        if i >= |t.items| {
          NewRowOk(req, dir.tenants[req.tenant], now, u.items[i].target);
        } else {
          assert u.items[i] == t.items[i];
        }
      }
      forall x ensures UsageFor(u.usage, x) == ReceiptOf(u, x) {
        assert UsageFor(t.usage, x) == ReceiptOf(t, x);
      }
    }
  }

  lemma NewRowOk(req: Request, tenant: int, now: int, target: Target)
    requires ValidRequest(req)
    ensures RowOk(req.id, NewRow(req, tenant, now)) && ItemOk(HeldItem(req, target), NewRow(req, tenant, now))
  {
  }

  // ---------------------------------------------------------------------------------------
  // Every transaction, every run
  // ---------------------------------------------------------------------------------------

  lemma NextOk(t: Tables, step: Step)
    requires Linked(t) && RowsOk(t) && ItemsOk(t) && ReceiptsOk(t)
    ensures var u := Next(t, step); RowsOk(u) && ItemsOk(u) && ReceiptsOk(u)
  {
    hide ReserveTx, ApplyReservation, MarkStaleTx, PatchTx, TopUpTx, CreateTx, RowsOk, ItemsOk, ReceiptsOk, Linked,
         MarkUnknownRow, Blank;
    var u := Next(t, step);
    if Transact(t, step).Commit? {
      match step
      case ReserveStep(dir, req, now) => ReserveOk(t, dir, req, now);
      case DispatchStep(id, now) =>
        RowIsOk(t, id);
        if u != t {
          WithRowOk(t, id,
                    t.reservations[id].(status := Dispatched, version := t.reservations[id].version + 1,
                                        updatedAt := now));
        }
      case RecordStep(s, now) =>
        RowIsOk(t, s.id);
        if u != t {
          WithRowOk(t, s.id, u.reservations[s.id]);
        }
      case ApplyStep(dir, id, now) =>
        RowIsOk(t, id);
        var r := t.reservations[id];
        if !r.applied {
          ApplyReservationOk(t, id, r.result.value, if r.result.value.outcome == NoCharge then Released else Settled,
                             now);
        }
      case UnknownStep(dir, id, reason, now) =>
        if u != t {
          MarkUnknownRowOk(t, id, reason, now);
        }
      case StaleStep(dir, ids, before, now) => MarkStaleOk(t, dir, ids, before, now);
      case ResolveStep(dir, tenant, id, res, now) =>
        RowIsOk(t, id);
        var s, status := ResolutionResult(id, res), ResolutionStatus(res.action);
        ApplyReservationOk(t, id, s, status, now);
        EventsOk(ApplyReservation(t, id, s, status, now).tables, u);
      case CreateStep(dir, spec, now) =>
        CreateKeepsRows(t, dir, spec, now);
        EventsOk(t, u);
      case PatchStep(dir, tenant, policy, patch, now) =>
        PatchKeepsRows(t, dir, tenant, policy, patch, now);
        EventsOk(t, u);
      case TopUpStep(scope, delta, currency) =>
        TopUpKeepsRows(t, scope, delta, currency);
        EventsOk(t, u);
    }
  }

  lemma CreateKeepsRows(t: Tables, dir: Directory, spec: Policy, now: int)
    requires CreateTx(t, dir, spec, now).Commit?
    ensures var u := CreateTx(t, dir, spec, now).tables;
            u.reservations == t.reservations && u.items == t.items && u.usage == t.usage
  {
    hide ValidSpec, NormalizedSpec, ScopeOwned;
  }

  lemma PatchKeepsRows(t: Tables, dir: Directory, tenant: int, id: nat, patch: Patch, now: int)
    requires PatchTx(t, dir, tenant, id, patch, now).Commit?
    ensures var u := PatchTx(t, dir, tenant, id, patch, now).tables;
            u.reservations == t.reservations && u.items == t.items && u.usage == t.usage
  {
    hide PeriodBounds, Emit;
  }

  lemma TopUpKeepsRows(t: Tables, scope: Str, delta: int, currency: Str)
    requires TopUpTx(t, scope, delta, currency).Commit?
    ensures var u := TopUpTx(t, scope, delta, currency).tables;
            u.reservations == t.reservations && u.items == t.items && u.usage == t.usage
  {
    hide Lower, ValidCurrency;
  }

  lemma NextKeepsInv(t: Tables, step: Step)
    requires Inv(t)
    ensures Inv(Next(t, step))
  {
    hide Next, Books, Linked, RowsOk, ItemsOk, ReceiptsOk;
    NextConserves(t, step, []);
    NextLinked(t, step);
    NextOk(t, step);
  }

  lemma {:induction false} RunKeepsInv(t: Tables, steps: seq<Step>)
    requires Inv(t)
    ensures Inv(Run(t, steps))
  {
    hide Next, Inv;
    if steps != [] {
      RunKeepsInv(t, steps[..|steps| - 1]);
      NextKeepsInv(Run(t, steps[..|steps| - 1]), steps[|steps| - 1]);
    }
  }

  lemma EmptyInv()
    ensures Inv(EMPTY)
  {
  }
}
