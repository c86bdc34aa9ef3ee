/**
 The recovery loop: one `RetryPending` over a batch leaves every result of the batch applied or
 reported, and a batch that holds every pending result leaves nothing else pending.
 */
module Recovery {
  import opened Text
  import opened Tables
  import opened Transactions
  import opened History
  import opened Lifecycle
  import opened ExactlyOnce
  import opened Outcomes
  import opened Store

  predicate Pending(t: Tables, id: Str) {
    id in t.reservations && t.reservations[id].result.Some? && !t.reservations[id].applied
  }

  predicate Reported(errs: seq<(Str, Error)>, id: Str) {
    (id, CheckViolation) in errs
  }

  /** Only range violations were reported. */
  predicate RangeOnly(errs: seq<(Str, Error)>) {
    forall i :: 0 <= i < |errs| ==> errs[i].1 == CheckViolation
  }

  predicate TenantOf(t: Tables, dir: Directory, id: Str) {
    id in t.reservations && TenantExists(dir, t.reservations[id].tenant)
  }

  /** Replaying one reservation writes no other row, and makes its own row applied or leaves it. */
  lemma ReplayOneRow(t: Tables, dir: Directory, id: Str, now: int, x: Str)
    requires x in Next(t, ApplyStep(dir, id, now)).reservations
    ensures var u := Next(t, ApplyStep(dir, id, now));
            x in t.reservations && (u.reservations[x] == t.reservations[x] || u.reservations[x].applied)
  {
    hide ApplyReservation, Extends, ItemsSettled;
    var tx := ApplyTx(t, dir, id, now);
    if tx.Commit? && !t.reservations[id].applied {
      var s := t.reservations[id].result.value;
      ApplyReservationEffect(t, id, s, if s.outcome == NoCharge then Released else Settled, now);
    }
  }

  lemma {:induction false} ReplaysAddNoPending(t: Tables, dir: Directory, ids: seq<Str>, now: int, x: Str)
    requires Pending(Run(t, ApplySteps(dir, ids, now)), x)
    ensures Pending(t, x)
  {
    hide Next;
    if ids != [] {
      var n := |ids| - 1;
      var steps := ApplySteps(dir, ids, now);
      assert steps[..n] == ApplySteps(dir, ids[..n], now);
      ReplayOneRow(Run(t, steps[..n]), dir, ids[n], now, x);
      ReplaysAddNoPending(t, dir, ids[..n], now, x);
    }
  }

  lemma StaysReplayable(t: Tables, steps: seq<Step>, dir: Directory, id: Str)
    requires Inv(t) && TenantOf(t, dir, id) && t.reservations[id].result.Some?
    ensures var u := Run(t, steps); Inv(u) && TenantOf(u, dir, id) && u.reservations[id].result.Some?
    ensures var u := Run(t, steps); Final(t.reservations[id].status) ==> Final(u.reservations[id].status)
  {
    hide Inv, Run, PoliciesKept, ItemsKept;
    RunKeepsInv(t, steps);
    RunOrders(t, steps, id);
    RunExtends(t, steps);
    if Final(t.reservations[id].status) {
      AppliedIsFinal(t, steps, id);
    }
  }

  /** After the replays every id of the batch is final or reported, and only range violations are. */
  lemma {:induction false} ReplaysSettleOrReport(t: Tables, dir: Directory, ids: seq<Str>, now: int)
    requires Inv(t) && forall i :: 0 <= i < |ids| ==> TenantOf(t, dir, ids[i]) && t.reservations[ids[i]].result.Some?
    ensures var u, errs := Run(t, ApplySteps(dir, ids, now)), Failures(t, dir, ids, now);
            && Inv(u)
            && (forall i :: 0 <= i < |ids| ==>
                  ids[i] in u.reservations && (Final(u.reservations[ids[i]].status) || Reported(errs, ids[i])))
            && RangeOnly(errs)
  {
    hide Inv, Next, ApplyTx, TenantOf, Final;
    var steps := ApplySteps(dir, ids, now);
    if ids != [] {
      var n := |ids| - 1;
      var before := ids[..n];
      assert steps[..n] == ApplySteps(dir, before, now);
      ReplaysSettleOrReport(t, dir, before, now);
      var mid, u := Run(t, steps[..n]), Run(t, steps);
      StaysReplayable(t, steps[..n], dir, ids[n]);
      ReplayOne(mid, dir, ids[n], now);
      var tx := ApplyTx(mid, dir, ids[n], now);
      var errs := Failures(t, dir, before, now);
      assert Failures(t, dir, ids, now) == errs + if tx.Abort? then [(ids[n], tx.error)] else [];
      assert tx.Abort? ==> tx.error == CheckViolation;
      OnlyRange(errs, if tx.Abort? then [(ids[n], tx.error)] else []);
      forall i | 0 <= i < |ids|
        ensures ids[i] in u.reservations
                && (Final(u.reservations[ids[i]].status) || Reported(Failures(t, dir, ids, now), ids[i]))
      {
        if i < n {
          assert before[i] == ids[i];
          StaysReplayable(t, steps[..n], dir, ids[i]);
          OneMore(mid, dir, ids[n], now, ids[i]);
        }
      }
    }
  }

  lemma OnlyRange(a: seq<(Str, Error)>, b: seq<(Str, Error)>)
    requires RangeOnly(a) && RangeOnly(b)
    ensures RangeOnly(a + b)
  {
  }

  lemma ReplayOne(t: Tables, dir: Directory, id: Str, now: int)
    requires Inv(t) && TenantOf(t, dir, id) && t.reservations[id].result.Some?
    ensures var u, tx := Next(t, ApplyStep(dir, id, now)), ApplyTx(t, dir, id, now);
            && Inv(u) && id in u.reservations
            && if tx.Abort? then tx.error == CheckViolation else Final(u.reservations[id].status)
  {
    hide Inv, ApplyTx;
    PendingApplies(t, dir, id, now);
    NextKeepsInv(t, ApplyStep(dir, id, now));
  }

  lemma OneMore(t: Tables, dir: Directory, id: Str, now: int, x: Str)
    requires Inv(t) && TenantOf(t, dir, x) && t.reservations[x].result.Some?
    ensures var u := Next(t, ApplyStep(dir, id, now));
            x in u.reservations && (Final(t.reservations[x].status) ==> Final(u.reservations[x].status))
  {
    hide Inv, Next;
    RunOne(t, ApplyStep(dir, id, now));
    StaysReplayable(t, [ApplyStep(dir, id, now)], dir, x);
  }

  /** `RetryPending` drains: if its batch holds every pending result, then afterwards a result is still
      pending only if its replay was reported as a 64-bit range violation; nothing else is reported. */
  lemma RetryDrains(t: Tables, dir: Directory, pending: seq<Str>, limit: int, now: int)
    requires Inv(t)
    requires forall id :: id in pending ==> TenantOf(t, dir, id) && t.reservations[id].result.Some?
    requires forall id :: Pending(t, id) ==> id in Batch(pending, limit)
    ensures var ids := Batch(pending, limit);
            var u, errs := Run(t, ApplySteps(dir, ids, now)), Failures(t, dir, ids, now);
            && Inv(u)
            && (forall id :: Pending(u, id) ==> Reported(errs, id))
            && (forall id :: id in ids ==>
                  id in u.reservations && (Final(u.reservations[id].status) || Reported(errs, id)))
            && RangeOnly(errs)
  {
    hide Inv, Run, TenantOf, Batch, Failures;
    var ids := Batch(pending, limit);
    assert forall i :: 0 <= i < |ids| ==> ids[i] in pending by { BatchAmong(pending, limit); }
    ReplaysSettleOrReport(t, dir, ids, now);
    var u := Run(t, ApplySteps(dir, ids, now));
    forall id | Pending(u, id) ensures Reported(Failures(t, dir, ids, now), id) {
      ReplaysAddNoPending(t, dir, ids, now, id);
      FinalIsApplied(u, id);
    }
  }

  lemma BatchAmong(pending: seq<Str>, limit: int)
    ensures forall i :: 0 <= i < |Batch(pending, limit)| ==> Batch(pending, limit)[i] in pending
  {
    assert Batch(pending, limit) <= pending;
  }

  lemma FinalIsApplied(t: Tables, id: Str)
    requires Inv(t) && id in t.reservations
    ensures Final(t.reservations[id].status) <==> t.reservations[id].applied
  {
    RowIsOk(t, id);
  }

  // ---------------------------------------------------------------------------------------
  // Stale reservations
  // ---------------------------------------------------------------------------------------

  /** Stale marking moves to unknown exactly the listed rows that are reserved or dispatched, have no result and
      were last written before the cutoff, and writes no other row. */
  lemma {:induction false} StaleMarksExactly(t: Tables, dir: Directory, ids: seq<Str>, before: int, now: int, x: Str)
    requires MarkStaleTx(t, dir, ids, before, now).Commit?
    ensures var u := MarkStaleTx(t, dir, ids, before, now).tables;
            && (x in u.reservations <==> x in t.reservations)
            && (x in t.reservations ==>
                  var row := t.reservations[x];
                  u.reservations[x]
                  == if x in ids && (row.status == Reserved || row.status == Dispatched) && row.result == None
                        && row.updatedAt < before
                     then row.(status := Unknown, reason := u.reservations[x].reason, version := row.version + 1,
                               updatedAt := now)
                     else row)
    decreases |ids|
  {
    hide HasUnknownEvent;
    if ids != [] {
      assert ids == [ids[0]] + ids[1..];
      if Stale(t, ids[0], before) {
        StaleMarksExactly(MarkUnknownRow(t, ids[0], STALE_REASON, now), dir, ids[1..], before, now, x);
      } else {
        StaleMarksExactly(t, dir, ids[1..], before, now, x);
      }
    }
  }

  /** It fails only when a stale row's tenant is gone, and then marks nothing. */
  lemma {:induction false} StaleFails(t: Tables, dir: Directory, ids: seq<Str>, before: int, now: int)
    requires MarkStaleTx(t, dir, ids, before, now).Abort?
    ensures MarkStaleTx(t, dir, ids, before, now).error == NotFound
    ensures exists x :: x in ids && x in t.reservations && t.reservations[x].tenant !in dir.tenants.Values
    decreases |ids|
  {
    hide HasUnknownEvent;
    if Stale(t, ids[0], before) && TenantExists(dir, t.reservations[ids[0]].tenant) {
      var w := MarkUnknownRow(t, ids[0], STALE_REASON, now);
      StaleFails(w, dir, ids[1..], before, now);
      var x :| x in ids[1..] && x in w.reservations && w.reservations[x].tenant !in dir.tenants.Values;
      assert x in ids && t.reservations[x].tenant == w.reservations[x].tenant;
    } else if !Stale(t, ids[0], before) {
      StaleFails(t, dir, ids[1..], before, now);
      var x :| x in ids[1..] && x in t.reservations && t.reservations[x].tenant !in dir.tenants.Values;
      assert x in ids;
    } else {
      assert ids[0] in ids;
    }
  }

  /** The listed rows that stale marking moves. */
  ghost function StaleRows(t: Tables, ids: seq<Str>, before: int): set<Str> {
    set x | x in ids && x in t.reservations
            && (t.reservations[x].status == Reserved || t.reservations[x].status == Dispatched)
            && t.reservations[x].result == None && t.reservations[x].updatedAt < before
  }

  /** The count it returns is how many rows it moved, however often each was listed. */
  lemma {:induction false} StaleCountIs(t: Tables, ids: seq<Str>, before: int, now: int)
    ensures StaleCount(t, ids, before, now) == |StaleRows(t, ids, before)|
    decreases |ids|
  {
    hide HasUnknownEvent;
    if ids != [] {
      var x := ids[0];
      assert ids == [x] + ids[1..];
      if Stale(t, x, before) {
        var w := MarkUnknownRow(t, x, STALE_REASON, now);
        StaleCountIs(w, ids[1..], before, now);
        assert StaleRows(t, ids, before) == StaleRows(w, ids[1..], before) + {x};
      } else {
        StaleCountIs(t, ids[1..], before, now);
        assert StaleRows(t, ids, before) == StaleRows(t, ids[1..], before);
      }
    }
  }
}
