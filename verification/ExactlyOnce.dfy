/**
 A reservation over whole runs: its version orders its changes, a durable result is permanent, and
 an applied one is final, whatever crashes, replays and repeated calls come in between.
 */
module ExactlyOnce {
  import opened Text
  import opened Calendar
  import opened Tables
  import opened Transactions
  import opened History
  import opened Conservation
  import opened Lifecycle

  /** The reservation's row, items and usage rows are the same in both states. */
  ghost predicate Frozen(t: Tables, u: Tables, id: Str) {
    && id in t.reservations && id in u.reservations && u.reservations[id] == t.reservations[id]
    && (forall i :: 0 <= i < |t.items| && t.items[i].reservation == id ==> i < |u.items| && u.items[i] == t.items[i])
    && (forall i :: 0 <= i < |u.items| && u.items[i].reservation == id ==> i < |t.items| && u.items[i] == t.items[i])
    && UsageFor(u.usage, id) == UsageFor(t.usage, id)
  }

  /** The reservation's row moved on: its version grew and a result it had is still there. */
  ghost predicate Advanced(t: Tables, u: Tables, id: Str) {
    && id in t.reservations && id in u.reservations
    && u.reservations[id].version > t.reservations[id].version
    && (t.reservations[id].result.Some? ==> u.reservations[id].result == t.reservations[id].result)
    && !t.reservations[id].applied
  }

  lemma AdvancedWithRow(t: Tables, id: Str, r: Reservation, x: Str)
    requires id in t.reservations && x in t.reservations
    requires r.version > t.reservations[id].version && !t.reservations[id].applied
    requires t.reservations[id].result.Some? ==> r.result == t.reservations[id].result
    ensures Frozen(t, WithRow(t, id, r), x) || Advanced(t, WithRow(t, id, r), x)
  {
  }

  lemma MarkUnknownRowAdvances(t: Tables, id: Str, reason: Str, now: int, x: Str)
    requires id in t.reservations && x in t.reservations && !t.reservations[id].applied
    ensures var u := MarkUnknownRow(t, id, reason, now); Frozen(t, u, x) || Advanced(t, u, x)
  {
    hide HasUnknownEvent;
  }

  lemma FrozenThen(t: Tables, u: Tables, v: Tables, x: Str)
    requires Frozen(t, u, x) || Advanced(t, u, x)
    requires Frozen(u, v, x) || Advanced(u, v, x)
    ensures Frozen(t, v, x) || Advanced(t, v, x)
    ensures Frozen(t, u, x) && Frozen(u, v, x) ==> Frozen(t, v, x)
  {
  }

  lemma FrozenReflexive(t: Tables, x: Str)
    requires x in t.reservations
    ensures Frozen(t, t, x)
  {
  }

  lemma ReserveFreezes(t: Tables, dir: Directory, request: Request, now: int, x: Str)
    requires x in t.reservations && ReserveTx(t, dir, request, now).Commit?
    ensures Frozen(t, ReserveTx(t, dir, request, now).tables, x)
  {
    hide ReserveTx, Normalized, ValidRequest, UsageFor;
    if Normalized(request).id in t.reservations {
      RepeatedReserve(t, dir, request, now);
    } else {
      ReserveEffect(t, dir, request, now);
    }
  }

  lemma ApplyAdvances(t: Tables, id: Str, s: Settlement, status: Status, now: int, x: Str)
    requires id in t.reservations && x in t.reservations && !t.reservations[id].applied
    requires t.reservations[id].result == None || (t.reservations[id].result == Some(s) && status != ReleasedUnknown)
    requires ApplyReservation(t, id, s, status, now).Commit?
    ensures var u := ApplyReservation(t, id, s, status, now).tables; Frozen(t, u, x) || Advanced(t, u, x)
  {
    hide ApplyReservation, Extends, UsageFor;
    ApplyReservationEffect(t, id, s, status, now);
    if s.outcome == Known && s.usage.Some? {
      UsageForAppend(t.usage, UsageRow(id, s.usage.value), x);
    } else {
      assert t.usage + UsageOf(id, s) == t.usage;
    }
  }

  lemma {:induction false} MarkStaleAdvances(t: Tables, dir: Directory, ids: seq<Str>, before: int, now: int, x: Str)
    requires RowsOk(t) && ItemsOk(t) && ReceiptsOk(t)
    requires x in t.reservations && MarkStaleTx(t, dir, ids, before, now).Commit?
    ensures var u := MarkStaleTx(t, dir, ids, before, now).tables; Frozen(t, u, x) || Advanced(t, u, x)
    decreases |ids|
  {
    hide Frozen, Advanced, MarkUnknownRow, RowsOk, ItemsOk, ReceiptsOk;
    if ids == [] {
      FrozenReflexive(t, x);
    } else if Stale(t, ids[0], before) {
      var w := MarkUnknownRow(t, ids[0], STALE_REASON, now);
      RowIsOk(t, ids[0]);
      MarkUnknownRowOk(t, ids[0], STALE_REASON, now);
      MarkUnknownRowAdvances(t, ids[0], STALE_REASON, now, x);
      assert x in w.reservations by { KeepsRow(t, ids[0], STALE_REASON, now, x); }
      MarkStaleAdvances(w, dir, ids[1..], before, now, x);
      FrozenThen(t, w, MarkStaleTx(t, dir, ids, before, now).tables, x);
    } else {
      MarkStaleAdvances(t, dir, ids[1..], before, now, x);
    }
  }

  lemma KeepsRow(t: Tables, id: Str, reason: Str, now: int, x: Str)
    requires id in t.reservations && x in t.reservations
    ensures x in MarkUnknownRow(t, id, reason, now).reservations
  {
  }

  lemma SameRowsFrozen(t: Tables, u: Tables, x: Str)
    requires u.reservations == t.reservations && u.items == t.items && u.usage == t.usage && x in t.reservations
    ensures Frozen(t, u, x)
  {
  }

  /** A transaction either leaves a reservation's row, items and usage alone, or raises its version. */
  lemma NextOrders(t: Tables, step: Step, x: Str)
    requires RowsOk(t) && ItemsOk(t) && ReceiptsOk(t) && x in t.reservations
    ensures Frozen(t, Next(t, step), x) || Advanced(t, Next(t, step), x)
  {
    hide ReserveTx, ApplyReservation, MarkStaleTx, PatchTx, TopUpTx, CreateTx, MarkUnknownRow, Blank, RowsOk, ItemsOk,
         ReceiptsOk, Frozen, Advanced;
    var u := Next(t, step);
    FrozenReflexive(t, x);
    if Transact(t, step).Commit? {
      match step
      case ReserveStep(dir, req, now) => ReserveFreezes(t, dir, req, now, x);
      case DispatchStep(id, now) =>
        RowIsOk(t, id);
        if u != t {
          AdvancedWithRow(t, id, u.reservations[id], x);
        }
      case RecordStep(s, now) =>
        RowIsOk(t, s.id);
        if u != t {
          AdvancedWithRow(t, s.id, u.reservations[s.id], x);
        }
      case ApplyStep(dir, id, now) =>
        var r := t.reservations[id];
        if !r.applied {
          ApplyAdvances(t, id, r.result.value, if r.result.value.outcome == NoCharge then Released else Settled, now,
                        x);
        }
      case UnknownStep(dir, id, reason, now) =>
        RowIsOk(t, id);
        if u != t {
          MarkUnknownRowAdvances(t, id, reason, now, x);
        }
      case StaleStep(dir, ids, before, now) => MarkStaleAdvances(t, dir, ids, before, now, x);
      case ResolveStep(dir, tenant, id, res, now) =>
        RowIsOk(t, id);
        ResolveAdvances(t, dir, tenant, id, res, now, x);
      case CreateStep(dir, spec, now) =>
        CreateKeepsRows(t, dir, spec, now);
        SameRowsFrozen(t, u, x);
      case PatchStep(dir, tenant, policy, patch, now) =>
        PatchKeepsRows(t, dir, tenant, policy, patch, now);
        SameRowsFrozen(t, u, x);
      case TopUpStep(scope, delta, currency) =>
        TopUpKeepsRows(t, scope, delta, currency);
        SameRowsFrozen(t, u, x);
    }
  }

  lemma ResolveAdvances(t: Tables, dir: Directory, tenant: int, id: Str, res: Resolution, now: int, x: Str)
    requires x in t.reservations && ResolveTx(t, dir, tenant, id, res, now).Commit? && !t.reservations[id].applied
    ensures var u := ResolveTx(t, dir, tenant, id, res, now).tables; Frozen(t, u, x) || Advanced(t, u, x)
  {
    hide ApplyReservation, ValidResolution, UsageFor;
    ApplyAdvances(t, id, ResolutionResult(id, res), ResolutionStatus(res.action), now, x);
  }

  /** Over any run the version only grows, and while it stands still nothing about the reservation
      has changed; once a result is durable it stays. */
  lemma {:induction false} RunOrders(t: Tables, steps: seq<Step>, x: Str)
    requires Inv(t) && x in t.reservations
    ensures Frozen(t, Run(t, steps), x) || Advanced(t, Run(t, steps), x)
  {
    hide Frozen, Advanced, Next, Books, Linked, RowsOk, ItemsOk, ReceiptsOk;
    if steps == [] {
      FrozenReflexive(t, x);
    } else {
      var before, last := steps[..|steps| - 1], steps[|steps| - 1];
      var mid := Run(t, before);
      RunOrders(t, before, x);
      RunKeepsInv(t, before);
      assert x in mid.reservations by { StillThere(t, mid, x); }
      NextOrders(mid, last, x);
      FrozenThen(t, mid, Run(t, steps), x);
    }
  }

  lemma StillThere(t: Tables, u: Tables, x: Str)
    requires Frozen(t, u, x) || Advanced(t, u, x)
    ensures x in u.reservations
  {
  }

  /** Settled and released are final: no later run touches the row, its items or its usage rows. */
  lemma AppliedIsFinal(t: Tables, steps: seq<Step>, id: Str)
    requires Inv(t) && id in t.reservations && Final(t.reservations[id].status)
    ensures Frozen(t, Run(t, steps), id)
  {
    RunOrders(t, steps, id);
  }

  /** Once durable, a result is the reservation's only result: later equal ones change nothing at phase
      one, different ones are refused, and an operator can no longer resolve it or a worker dispatch it. */
  lemma DurableResultStands(t: Tables, steps: seq<Step>, id: Str, s: Settlement, now: int)
    requires Inv(t) && id in t.reservations && t.reservations[id].result.Some? && s.id == id
    ensures var u := Run(t, steps);
            && id in u.reservations && u.reservations[id].result == t.reservations[id].result
            && RecordTx(u, s, now) == (if Some(s) == t.reservations[id].result then Commit(u) else Abort(Conflict))
            && MarkDispatchedTx(u, id, now) == Abort(Conflict)
            && forall dir, tenant, res :: After(ResolveTx(u, dir, tenant, id, res, now), u) == u
  {
    hide ApplyReservation;
    RunOrders(t, steps, id);
  }

  lemma ReservedRow(t: Tables, dir: Directory, request: Request, now: int)
    requires ReserveTx(t, dir, request, now).Commit?
    ensures var req, u := Normalized(request), ReserveTx(t, dir, request, now).tables;
            && ValidRequest(req) && req.tenant in dir.tenants && req.id in u.reservations
            && u.reservations[req.id].identity == req && u.reservations[req.id].tenant == dir.tenants[req.tenant]
  {
    hide DebitScopes, DebitBudgets, Normalized, ValidRequest, LegacyGroup, ScopesOf, GroupId;
    if Normalized(request).id !in t.reservations {
      ReserveEffect(t, dir, request, now);
    }
  }

  /** A reservation that succeeded succeeds again at any later time, and draws nothing more. */
  lemma ReserveIsIdempotent(t: Tables, steps: seq<Step>, dir: Directory, request: Request, now: int, later: int)
    requires ReserveTx(t, dir, request, now).Commit?
    ensures var u := Run(ReserveTx(t, dir, request, now).tables, steps); ReserveTx(u, dir, request, later) == Commit(u)
  {
    hide DebitScopes, DebitBudgets, Normalized, ValidRequest, LegacyGroup, ScopesOf, GroupId, Run, PoliciesKept,
         ItemsKept;
    var w := ReserveTx(t, dir, request, now).tables;
    ReservedRow(t, dir, request, now);
    RunExtends(w, steps);
    assert SameIdentity(w.reservations[Normalized(request).id], Run(w, steps).reservations[Normalized(request).id]);
  }

  /** The transactions one `Finish` call runs. */
  function FinishSteps(t: Tables, dir: Directory, s: Settlement, now: int): seq<Step> {
    if !ValidSettlement(s) then []
    else if s.outcome == Uncertain then [UnknownStep(dir, s.id, s.reason, now)]
    else [RecordStep(s, now)] + if RecordTx(t, s, now).Commit? then [ApplyStep(dir, s.id, now)] else []
  }

  /** A whole `Finish` is a run of transactions, so what holds over every run holds of it. */
  lemma FinishIsRun(t: Tables, dir: Directory, s: Settlement, now: int)
    ensures Finished(t, dir, s, now).0 == Run(t, FinishSteps(t, dir, s, now))
  {
    hide ApplyTx, RecordTx, MarkUnknownTx;
    var steps := FinishSteps(t, dir, s, now);
    if |steps| > 0 {
      var first := steps[..1];
      assert Run(t, first[..0]) == t;
      assert Run(t, first) == Next(t, steps[0]);
      if |steps| == 1 {
        assert steps == first;
      }
    }
  }

  /** After a result was applied, any later `Finish` of the reservation, equal or not, leaves the tables
      as they are, and an equal one succeeds. */
  lemma FinishHappensOnce(t: Tables, steps: seq<Step>, dir: Directory, s: Settlement, now: int)
    requires Inv(t) && s.id in t.reservations && t.reservations[s.id].applied
    ensures var u := Run(t, steps);
            && Finished(u, dir, s, now).0 == u
            && (t.reservations[s.id].result == Some(s) && TenantExists(dir, t.reservations[s.id].tenant) ==>
                  Finished(u, dir, s, now).1 == None)
  {
    hide ApplyReservation, RowsOk, ItemsOk, Books, Linked, ReceiptsOk, MarkUnknownRow;
    var u := Run(t, steps);
    assert RowOk(s.id, t.reservations[s.id]) by { RowIsOk(t, s.id); }
    AppliedIsFinal(t, steps, s.id);
  }

  /** `Finish` called twice with one result, anything in between: the second call never conflicts, and
      does no more than replay the application if that is still missing. */
  lemma RepeatedFinish(t: Tables, steps: seq<Step>, dir: Directory, s: Settlement, now: int, later: int)
    requires Inv(t) && ValidSettlement(s) && s.outcome != Uncertain && RecordTx(t, s, now).Commit?
    ensures var u := Run(Finished(t, dir, s, now).0, steps);
            && Inv(u) && s.id in u.reservations && u.reservations[s.id].result == Some(s)
            && RecordTx(u, s, later) == Commit(u)
            && Finished(u, dir, s, later).0 == Next(u, ApplyStep(dir, s.id, later))
            && (u.reservations[s.id].applied ==> Finished(u, dir, s, later).0 == u)
  {
    hide ApplyReservation, Inv, Run;
    var recorded := RecordTx(t, s, now).tables;
    NextKeepsInv(t, RecordStep(s, now));
    var w := Finished(t, dir, s, now).0;
    assert w == Next(recorded, ApplyStep(dir, s.id, now));
    NextKeepsInv(recorded, ApplyStep(dir, s.id, now));
    var rest := [ApplyStep(dir, s.id, now)];
    assert Run(recorded, rest) == w by { RunOne(recorded, rest[0]); }
    DurableResultStands(recorded, rest, s.id, s, later);
    DurableResultStands(w, steps, s.id, s, later);
    RunKeepsInv(w, steps);
  }

  lemma RunOne(t: Tables, step: Step)
    ensures Run(t, [step]) == Next(t, step)
  {
    assert Run(t, [step][..0]) == t;
  }

  /** An operator who read the row before it changed is refused. */
  lemma StaleResolveRefused(t: Tables, steps: seq<Step>, dir: Directory, tenant: int, id: Str, res: Resolution,
                            now: int)
    requires Inv(t) && id in t.reservations && res.version == t.reservations[id].version
    ensures var u := Run(t, steps);
            id in u.reservations
            && (u.reservations[id] != t.reservations[id] ==> ResolveTx(u, dir, tenant, id, res, now).Abort?)
  {
    hide ApplyReservation, ValidResolution;
    RunOrders(t, steps, id);
  }

  /** The status a row may have after one more transaction. */
  predicate MayBecome(a: Status, b: Status) {
    match a
    case Reserved => b in {Reserved, Dispatched, Unknown, Settled, Released}
    case Dispatched => b in {Dispatched, Unknown, Settled, Released}
    case Unknown => b in {Unknown, ReleasedUnknown, Settled, Released}
    case ReleasedUnknown => b in {ReleasedUnknown, Settled}
    case Settled => b == Settled
    case Released => b == Released
  }

  /** Every transaction moves a row along the status machine or leaves its status. */
  lemma NextStatus(t: Tables, step: Step, x: Str)
    requires Inv(t) && x in t.reservations
    ensures x in Next(t, step).reservations
    ensures MayBecome(t.reservations[x].status, Next(t, step).reservations[x].status)
  {
    hide Transact, Inv;
    if Transact(t, step).Commit? {
      match step
      case ReserveStep(_, _, _) => OtherStatus(t, step, x);
      case ApplyStep(_, _, _) => ApplyStatus(t, step, x);
      case ResolveStep(_, _, _, _, _) => ResolveStatus(t, step, x);
      case StaleStep(_, _, _, _) => OtherStatus(t, step, x);
      case CreateStep(_, _, _) => OtherStatus(t, step, x);
      case PatchStep(_, _, _, _, _) => OtherStatus(t, step, x);
      case TopUpStep(_, _, _) => OtherStatus(t, step, x);
      case _ => RowStatus(t, step, x);
    }
  }

  lemma RowStatus(t: Tables, step: Step, x: Str)
    requires x in t.reservations && (step.DispatchStep? || step.RecordStep? || step.UnknownStep?)
    ensures x in Next(t, step).reservations
    ensures MayBecome(t.reservations[x].status, Next(t, step).reservations[x].status)
  {
    hide HasUnknownEvent, ValidSettlement;
  }

  lemma ApplyStatus(t: Tables, step: Step, x: Str)
    requires Inv(t) && x in t.reservations && step.ApplyStep? && Transact(t, step).Commit?
    ensures x in Next(t, step).reservations
    ensures MayBecome(t.reservations[x].status, Next(t, step).reservations[x].status)
  {
    hide ApplyReservation, Books, Linked, ItemsOk, ReceiptsOk, Extends, ItemsSettled;
    var r := t.reservations[step.id];
    if !r.applied {
      assert RowOk(step.id, r) by { RowIsOk(t, step.id); }
      ApplyReservationEffect(t, step.id, r.result.value,
                             if r.result.value.outcome == NoCharge then Released else Settled, step.now);
    }
  }

  lemma ResolveStatus(t: Tables, step: Step, x: Str)
    requires x in t.reservations && step.ResolveStep? && Transact(t, step).Commit?
    ensures x in Next(t, step).reservations
    ensures MayBecome(t.reservations[x].status, Next(t, step).reservations[x].status)
  {
    hide ApplyReservation, Extends, ItemsSettled, Blank;
    ApplyReservationEffect(t, step.id, ResolutionResult(step.id, step.res), ResolutionStatus(step.res.action),
                           step.now);
  }

  lemma OtherStatus(t: Tables, step: Step, x: Str)
    requires x in t.reservations && Transact(t, step).Commit?
    requires step.ReserveStep? || step.StaleStep? || step.CreateStep? || step.PatchStep? || step.TopUpStep?
    ensures x in Next(t, step).reservations
    ensures MayBecome(t.reservations[x].status, Next(t, step).reservations[x].status)
  {
    hide ReserveTx, MarkStaleTx, PatchTx, TopUpTx, CreateTx, UsageFor;
    match step
    case ReserveStep(dir, req, now) => ReserveFreezes(t, dir, req, now, x);
    case StaleStep(dir, ids, before, now) => StaleStatus(t, dir, ids, before, now, x);
    case CreateStep(dir, spec, now) => CreateKeepsRows(t, dir, spec, now);
    case PatchStep(dir, tenant, policy, patch, now) => PatchKeepsRows(t, dir, tenant, policy, patch, now);
    case TopUpStep(scope, delta, currency) => TopUpKeepsRows(t, scope, delta, currency);
  }

  lemma {:induction false} StaleStatus(t: Tables, dir: Directory, ids: seq<Str>, before: int, now: int, x: Str)
    requires x in t.reservations && MarkStaleTx(t, dir, ids, before, now).Commit?
    ensures var u := MarkStaleTx(t, dir, ids, before, now).tables;
            && x in u.reservations
            && (u.reservations[x].status == t.reservations[x].status
                || (t.reservations[x].status in {Reserved, Dispatched} && u.reservations[x].status == Unknown))
    decreases |ids|
  {
    hide HasUnknownEvent;
    if ids != [] {
      StaleStatus(if Stale(t, ids[0], before) then MarkUnknownRow(t, ids[0], STALE_REASON, now) else t, dir, ids[1..],
                  before, now, x);
    }
  }
}
