/**
 Where the money ends up depends on what was settled, not on the path: releasing at risk and
 charging later leaves the same balances as charging at once. And a settlement of a reachable
 state can only fail on a 64-bit column range.
 */
module Outcomes {
  import opened Text
  import opened Calendar
  import opened Tables
  import opened Transactions
  import opened History
  import opened Conservation
  import opened Lifecycle
  import opened ExactlyOnce

  /** `u` is `t` with one reservation's items settled at `actual` and money conserved. */
  ghost predicate Settles(t: Tables, u: Tables, id: Str, actual: int) {
    && ItemsSettled(t.items, u.items, 0, id, actual)
    && Books(u) && (forall scope :: Claim(u, scope) == Claim(t, scope))
    && u.quotas.Keys == t.quotas.Keys && QuotasKept(t, u)
    && SameAccountTerms(t, u)
  }

  ghost predicate SameAccountTerms(t: Tables, u: Tables) {
    u.accounts.Keys == t.accounts.Keys && forall a :: a in t.accounts ==> SameTermsOf(t.accounts[a], u.accounts[a])
  }

  predicate SameTermsOf(a: Account, b: Account) {
    b == a.(reserved := b.reserved, committed := b.committed, released := b.released)
  }

  lemma {:induction false} ApplyItemsKeepTerms(t: Tables, i: nat, id: Str, s: Settlement, currency: Str)
    requires i <= |t.items| && ApplyItems(t, i, id, s, currency).Commit?
    ensures SameAccountTerms(t, ApplyItems(t, i, id, s, currency).tables)
    decreases |t.items| - i
  {
    hide Lower, Emit;
    if i < |t.items| {
      if t.items[i].reservation != id {
        ApplyItemsKeepTerms(t, i + 1, id, s, currency);
      } else {
        var w, u := ApplyItem(t, i, s, currency).tables, ApplyItems(t, i, id, s, currency).tables;
        ApplyItemsKeepTerms(w, i + 1, id, s, currency);
        assert SameAccountTerms(t, w);
        forall a | a in t.accounts ensures SameTermsOf(t.accounts[a], u.accounts[a]) {
          assert SameTermsOf(t.accounts[a], w.accounts[a]) && SameTermsOf(w.accounts[a], u.accounts[a]);
        }
      }
    }
  }

  lemma ApplySettles(t: Tables, id: Str, s: Settlement, status: Status, now: int)
    requires Books(t) && id in t.reservations && ApplyReservation(t, id, s, status, now).Commit?
    ensures Settles(t, ApplyReservation(t, id, s, status, now).tables, id, s.actual)
  {
    hide ApplyItems, Books, Claim, ItemsSettled, QuotasKept;
    var u, c := ApplyReservation(t, id, s, status, now).tables, t.reservations[id].identity.currency;
    ApplyReservationEffect(t, id, s, status, now);
    ApplyItemsKeepTerms(t, 0, id, s, c);
    forall scope ensures Claim(u, scope) == Claim(t, scope) {
      ApplyReservationConserves(t, id, s, status, now, scope);
    }
    ApplyReservationConserves(t, id, s, status, now, []);
  }

  /** Settling depends on quotas, accounts and items alone. */
  lemma SettlesFrom(t: Tables, w: Tables, u: Tables, id: Str, actual: int)
    requires w.quotas == t.quotas && w.accounts == t.accounts && w.items == t.items
    requires Settles(w, u, id, actual)
    ensures Settles(t, u, id, actual)
  {
    forall scope ensures Claim(u, scope) == Claim(t, scope) {
      assert Claim(w, scope) == Claim(t, scope);
    }
  }

  lemma SettlesInto(t: Tables, u: Tables, v: Tables, id: Str, actual: int)
    requires v.quotas == u.quotas && v.accounts == u.accounts && v.items == u.items
    requires Settles(t, u, id, actual)
    ensures Settles(t, v, id, actual)
  {
    SameMoney(u, v, []);
    forall scope ensures Claim(v, scope) == Claim(t, scope) {
      assert Claim(u, scope) == Claim(t, scope);
    }
  }

  /** An operator's resolution settles at the given charge, at zero when it releases. */
  lemma ResolveSettles(t: Tables, dir: Directory, tenant: int, id: Str, res: Resolution, now: int)
    requires Books(t) && ResolveTx(t, dir, tenant, id, res, now).Commit?
    ensures Settles(t, ResolveTx(t, dir, tenant, id, res, now).tables, id,
                    if res.action == Settle && res.actual.Some? then res.actual.value else 0)
  {
    hide ApplyReservation, Settles, Books, Blank;
    var s, status := ResolutionResult(id, res), ResolutionStatus(res.action);
    ApplySettles(t, id, s, status, now);
    SettlesInto(t, ApplyReservation(t, id, s, status, now).tables, ResolveTx(t, dir, tenant, id, res, now).tables, id,
                s.actual);
  }

  /** Both phases of `Finish`, when the result is new and both commit. */
  lemma FinishSettles(t: Tables, dir: Directory, s: Settlement, now: int)
    requires Books(t) && s.id in t.reservations && t.reservations[s.id].result.None? && !t.reservations[s.id].applied
    requires RecordTx(t, s, now).Commit? && ApplyTx(RecordTx(t, s, now).tables, dir, s.id, now).Commit?
    ensures Settles(t, ApplyTx(RecordTx(t, s, now).tables, dir, s.id, now).tables, s.id, s.actual)
  {
    hide ApplyReservation, Settles, Books;
    var w := RecordTx(t, s, now).tables;
    SameMoney(t, w, []);
    ApplySettles(w, s.id, s, if s.outcome == NoCharge then Released else Settled, now);
    SettlesFrom(t, w, ApplyTx(w, dir, s.id, now).tables, s.id, s.actual);
  }

  /** Equal balances, and accounts equal in everything but the released counter. */
  ghost predicate SameFunds(u: Tables, v: Tables) {
    && v.quotas == u.quotas && v.accounts.Keys == u.accounts.Keys
    && forall a :: a in u.accounts ==> v.accounts[a] == u.accounts[a].(released := v.accounts[a].released)
  }

  ghost predicate SameHoldings(a: seq<Item>, b: seq<Item>) {
    |a| == |b| && forall i :: 0 <= i < |a| ==> b[i] == a[i].(released := b[i].released)
  }

  lemma {:induction false} SameHoldingsTotals(a: seq<Item>, b: seq<Item>, g: Target)
    requires SameHoldings(a, b)
    ensures Total(a, g, Held) == Total(b, g, Held) && Total(a, g, Committed) == Total(b, g, Committed)
  {
    if a != [] {
      var n := |a| - 1;
      assert SameHoldings(a[..n], b[..n]);
      SameHoldingsTotals(a[..n], b[..n], g);
      assert b[n] == a[n].(released := b[n].released);
    }
  }

  /** Releasing at risk and settling later comes to the same funds as settling at once. */
  lemma PathIndependence(t: Tables, direct: Tables, released: Tables, late: Tables, id: Str, actual: int)
    requires Books(direct) && Settles(t, direct, id, actual)
    requires Settles(t, released, id, 0) && Settles(released, late, id, actual)
    ensures SameFunds(direct, late)
  {
    hide Total, Linked;
    assert SameHoldings(direct.items, late.items) by {
      PathItems(t.items, direct.items, released.items, late.items, id, actual);
    }
    forall s | s in direct.quotas ensures s in late.quotas && late.quotas[s] == direct.quotas[s] {
      SameHoldingsTotals(direct.items, late.items, OnQuota(s));
      assert Claim(direct, s) == Claim(t, s) && Claim(released, s) == Claim(t, s)
             && Claim(late, s) == Claim(released, s);
    }
    forall a | a in direct.accounts
      ensures a in late.accounts && late.accounts[a] == direct.accounts[a].(released := late.accounts[a].released)
    {
      SameHoldingsTotals(direct.items, late.items, OnAccount(a));
      assert Balanced(direct, a) && Balanced(late, a);
      assert SameTermsOf(t.accounts[a], direct.accounts[a]) && SameTermsOf(t.accounts[a], released.accounts[a]);
      assert SameTermsOf(released.accounts[a], late.accounts[a]);
    }
  }

  /** `release_unknown` followed by a late charge, through an operator or through `Finish`, leaves the
      funds as if the reservation had been settled directly. */
  lemma LateChargeMatchesDirect(t: Tables, dir: Directory, tenant: int, id: Str, direct: Resolution,
                                release: Resolution, late: Resolution, s: Settlement, now: int)
    requires Inv(t) && direct.action == Settle && release.action == ReleaseUnknown
    requires ResolveTx(t, dir, tenant, id, direct, now).Commit? && ResolveTx(t, dir, tenant, id, release, now).Commit?
    ensures var u, w := ResolveTx(t, dir, tenant, id, direct, now).tables,
                        ResolveTx(t, dir, tenant, id, release, now).tables;
            var x := ResolveTx(w, dir, tenant, id, late, now);
            x.Commit? && late.action == Settle && late.actual == direct.actual ==> SameFunds(u, x.tables)
    ensures var u, w := ResolveTx(t, dir, tenant, id, direct, now).tables,
                        ResolveTx(t, dir, tenant, id, release, now).tables;
            var y := RecordTx(w, s, now);
            s.id == id && Some(s.actual) == direct.actual && y.Commit? && ApplyTx(y.tables, dir, id, now).Commit? ==>
              SameFunds(u, ApplyTx(y.tables, dir, id, now).tables)
  {
    hide Inv, ResolveTx, RecordTx, ApplyTx, Settles, SameFunds, Books;
    var u, w := ResolveTx(t, dir, tenant, id, direct, now).tables, ResolveTx(t, dir, tenant, id, release, now).tables;
    ResolvedRow(t, dir, tenant, id, direct, now);
    var actual := direct.actual.value;
    InvBooks(t);
    ResolvedRow(t, dir, tenant, id, release, now);
    ResolveSettles(t, dir, tenant, id, direct, now);
    ResolveSettles(t, dir, tenant, id, release, now);
    SettlesBooks(t, u, id, actual);
    SettlesBooks(t, w, id, 0);
    var x := ResolveTx(w, dir, tenant, id, late, now);
    if x.Commit? && late.action == Settle && late.actual == direct.actual {
      ResolveSettles(w, dir, tenant, id, late, now);
      PathIndependence(t, u, w, x.tables, id, actual);
    }
    var y := RecordTx(w, s, now);
    if s.id == id && Some(s.actual) == direct.actual && y.Commit? && ApplyTx(y.tables, dir, id, now).Commit? {
      FinishSettles(w, dir, s, now);
      PathIndependence(t, u, w, ApplyTx(y.tables, dir, id, now).tables, id, actual);
    }
  }

  lemma InvBooks(t: Tables)
    requires Inv(t)
    ensures Books(t)
  {
  }

  lemma SettlesBooks(t: Tables, u: Tables, id: Str, actual: int)
    requires Settles(t, u, id, actual)
    ensures Books(u)
  {
  }

  lemma ResolvedRow(t: Tables, dir: Directory, tenant: int, id: Str, res: Resolution, now: int)
    requires Inv(t) && ResolveTx(t, dir, tenant, id, res, now).Commit?
    ensures var u := ResolveTx(t, dir, tenant, id, res, now).tables;
            && (res.action == Settle ==> res.actual.Some?)
            && (res.action == ReleaseUnknown ==>
                  id in u.reservations && u.reservations[id].status == ReleasedUnknown
                  && u.reservations[id].result.None?
                  && !u.reservations[id].applied)
  {
    hide ApplyReservation, Blank, Books, Linked, ItemsOk, ReceiptsOk, Extends, ItemsSettled;
    RowIsOk(t, id);
    ApplyReservationEffect(t, id, ResolutionResult(id, res), ResolutionStatus(res.action), now);
  }

  lemma PathItems(t: seq<Item>, direct: seq<Item>, released: seq<Item>, late: seq<Item>, id: Str, actual: int)
    requires ItemsSettled(t, direct, 0, id, actual)
    requires ItemsSettled(t, released, 0, id, 0) && ItemsSettled(released, late, 0, id, actual)
    ensures SameHoldings(direct, late)
  {
  }

  // ---------------------------------------------------------------------------------------
  // Settlement always goes through, up to the column range
  // ---------------------------------------------------------------------------------------

  lemma ApplyItemOnlyOverflows(t: Tables, i: nat, s: Settlement, currency: Str)
    requires Linked(t) && i < |t.items| && t.reservations[t.items[i].reservation].identity.currency == currency
    ensures var tx := ApplyItem(t, i, s, currency);
            if tx.Abort? then tx.error == CheckViolation
            else Linked(tx.tables) && tx.tables.reservations == t.reservations
  {
    hide Lower, Emit;
    assert ItemLinked(t, t.items[i]);
    var tx := ApplyItem(t, i, s, currency);
    if tx.Commit? {
      ApplyItemExtends(t, i, s, currency);
      LinkedKept(t, tx.tables);
    }
  }

  lemma {:induction false} ApplyItemsOnlyOverflow(t: Tables, i: nat, id: Str, s: Settlement)
    requires Linked(t) && i <= |t.items| && id in t.reservations
    ensures var tx := ApplyItems(t, i, id, s, t.reservations[id].identity.currency);
            tx.Abort? ==> tx.error == CheckViolation
    decreases |t.items| - i
  {
    hide Linked;
    if i < |t.items| {
      if t.items[i].reservation == id {
        ApplyItemOnlyOverflows(t, i, s, t.reservations[id].identity.currency);
        var tx := ApplyItem(t, i, s, t.reservations[id].identity.currency);
        if tx.Commit? {
          ApplyItemKeepsLength(t, i, s, t.reservations[id].identity.currency);
          ApplyItemsOnlyOverflow(tx.tables, i + 1, id, s);
        }
      } else {
        ApplyItemsOnlyOverflow(t, i + 1, id, s);
      }
    }
  }

  lemma ApplyItemKeepsLength(t: Tables, i: nat, s: Settlement, currency: Str)
    requires i < |t.items| && ApplyItem(t, i, s, currency).Commit?
    ensures |ApplyItem(t, i, s, currency).tables.items| == |t.items|
  {
  }

  lemma PendingApplies(t: Tables, dir: Directory, id: Str, now: int)
    requires Inv(t) && id in t.reservations && t.reservations[id].result.Some?
             && TenantExists(dir, t.reservations[id].tenant)
    ensures var tx := ApplyTx(t, dir, id, now);
            if tx.Abort? then tx.error == CheckViolation
            else id in tx.tables.reservations && Final(tx.tables.reservations[id].status)
  {
    hide ApplyItems, Books, Linked, ItemsOk, ReceiptsOk;
    assert RowOk(id, t.reservations[id]) by { RowIsOk(t, id); }
    ApplyItemsOnlyOverflow(t, 0, id, t.reservations[id].result.value);
  }

  /** A durable result of any reachable state can be applied: short of a 64-bit overflow, replaying it
      never meets a missing row, a changed currency or a conflicting status. */
  lemma PendingResultApplies(steps: seq<Step>, dir: Directory, id: Str, now: int)
    requires var t := Run(EMPTY, steps);
             id in t.reservations && t.reservations[id].result.Some? && TenantExists(dir, t.reservations[id].tenant)
    ensures var tx := ApplyTx(Run(EMPTY, steps), dir, id, now); tx.Abort? ==> tx.error == CheckViolation
    ensures var tx := ApplyTx(Run(EMPTY, steps), dir, id, now);
            tx.Commit? ==> id in tx.tables.reservations && Final(tx.tables.reservations[id].status)
  {
    hide Run, ApplyTx, Inv;
    EmptyInv();
    RunKeepsInv(EMPTY, steps);
    PendingApplies(Run(EMPTY, steps), dir, id, now);
  }

  /** How a request's money ends. An unconfirmed outcome parks the reservation in unknown with every item
      still held. A known or released one either fails on a 64-bit column range, leaving the result
      pending and the money where it was, or is final: the items are settled at the charge, and the
      reservation's usage rows are exactly the one the settlement carried. */
  lemma FinishEndsRequest(t: Tables, dir: Directory, s: Settlement, now: int)
    requires Inv(t) && ValidSettlement(s)
    requires s.id in t.reservations && Open(t.reservations[s.id].status) && t.reservations[s.id].result.None?
    requires TenantExists(dir, t.reservations[s.id].tenant)
    ensures var u, err := Finished(t, dir, s, now).0, Finished(t, dir, s, now).1;
            && Inv(u) && s.id in u.reservations
            && (s.outcome == Uncertain ==>
                  err == None && u.reservations[s.id].status == Unknown && u.quotas == t.quotas
                  && u.accounts == t.accounts
                  && u.items == t.items && u.usage == t.usage)
            && (s.outcome != Uncertain ==> u.reservations[s.id].result == Some(s))
            && (s.outcome != Uncertain && err.Some? ==>
                  err.value == CheckViolation && !u.reservations[s.id].applied && u.quotas == t.quotas
                  && u.accounts == t.accounts && u.items == t.items && u.usage == t.usage)
            && (s.outcome != Uncertain && err.None? ==>
                  u.reservations[s.id].status == (if s.outcome == NoCharge then Released else Settled)
                  && Settles(t, u, s.id, s.actual)
                  && UsageFor(u.usage, s.id) == if s.usage.Some? then [s.usage.value] else [])
  {
    hide Settles, Books, Linked, RowsOk, ItemsOk, ReceiptsOk, UsageFor, ApplyReservation;
    assert RowOk(s.id, t.reservations[s.id]) by { RowIsOk(t, s.id); }
    if s.outcome == Uncertain {
      NextKeepsInv(t, UnknownStep(dir, s.id, s.reason, now));
    } else {
      var w := RecordTx(t, s, now).tables;
      NextKeepsInv(t, RecordStep(s, now));
      NextKeepsInv(w, ApplyStep(dir, s.id, now));
      ApplyFails(w, s.id, s, if s.outcome == NoCharge then Released else Settled, now);
      var tx := ApplyTx(w, dir, s.id, now);
      if tx.Commit? {
        FinishSettles(t, dir, s, now);
        Receipt(tx.tables, s.id);
      }
    }
  }

  lemma Receipt(t: Tables, id: Str)
    requires ReceiptsOk(t)
    ensures UsageFor(t.usage, id) == ReceiptOf(t, id)
  {
  }

  lemma ApplyFails(t: Tables, id: Str, s: Settlement, status: Status, now: int)
    requires Linked(t) && id in t.reservations
    ensures var tx := ApplyReservation(t, id, s, status, now);
            if tx.Abort? then tx.error == CheckViolation
            else id in tx.tables.reservations
                 && tx.tables.reservations[id] == SettledRow(t.reservations[id], s, status, now)
  {
    hide ApplyItems, Linked;
    ApplyItemsOnlyOverflow(t, 0, id, s);
  }
}
