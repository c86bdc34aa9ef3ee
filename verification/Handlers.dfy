/**
 What each transaction on one row answers and writes, said field by field from the tables before it.
 */
module Handlers {
  import opened Text
  import opened Calendar
  import opened Scope
  import opened Tables
  import opened Transactions
  import opened History
  import opened Conservation
  import opened Draws
  import opened Alerts

  /** Whether the text has a character that is not white space. */
  ghost predicate HasText(s: Str) {
    exists i :: 0 <= i < |s| && !(s[i] in {32, 9, 10, 11, 12, 13})
  }

  lemma HasTextIs(s: Str)
    ensures HasText(s) <==> !Blank(s)
  {
    if !Blank(s) {
      var c :| c in s && !(c == 32 || 9 <= c <= 13);
      var i :| 0 <= i < |s| && s[i] == c;
    }
    if HasText(s) {
      var i :| 0 <= i < |s| && !(s[i] in {32, 9, 10, 11, 12, 13});
      assert s[i] in s;
    }
  }

  /** Three letters of either case. */
  predicate IsCurrency(c: Str) {
    |c| == 3 && forall i :: 0 <= i < 3 ==> 65 <= c[i] <= 90 || 97 <= c[i] <= 122
  }

  lemma IsCurrencyIs(c: Str)
    ensures ValidCurrency(Lower(c)) <==> IsCurrency(c)
  {
    var l := Lower(c);
    if |c| == 3 {
      assert forall i :: 0 <= i < 3 ==> (97 <= l[i] <= 122 <==> 65 <= c[i] <= 90 || 97 <= c[i] <= 122);
    }
  }

  // ---------------------------------------------------------------------------------------
  // The reservation row
  // ---------------------------------------------------------------------------------------

  /** A row without a result goes from reserved to dispatched, once; anything else is a conflict. */
  lemma DispatchIs(t: Tables, id: Str, now: int)
    ensures MarkDispatchedTx(t, id, now)
            == if id !in t.reservations then Abort(NotFound)
               else
                 var row := t.reservations[id];
                 if row.result.Some? || !(row.status in {Reserved, Dispatched}) then Abort(Conflict)
                 else if row.status == Dispatched then Commit(t)
                 else
                   Commit(t.(reservations := t.reservations[id :=
                               row.(status := Dispatched, version := row.version + 1, updatedAt := now)]))
  {
  }

  /** An open row without a result becomes unknown, with one event per reservation; an unknown or risk-released
      one stays; anything else is a conflict. */
  lemma UnknownIs(t: Tables, dir: Directory, id: Str, reason: Str, now: int)
    ensures MarkUnknownTx(t, dir, id, reason, now)
            == if id !in t.reservations || t.reservations[id].tenant !in dir.tenants.Values then Abort(NotFound)
               else
                 var row := t.reservations[id];
                 if row.status in {Unknown, ReleasedUnknown} then Commit(t)
                 else if row.result.Some? || !(row.status in {Reserved, Dispatched}) then Abort(Conflict)
                 else
                   var seen := exists i ::
                                 0 <= i < |t.events| && t.events[i].UnknownCharge? && t.events[i].reservation == id;
                   Commit(t.(reservations := t.reservations[id :=
                               row.(status := Unknown, reason := reason, version := row.version + 1, updatedAt := now)],
                             events := if seen then t.events else t.events + [UnknownCharge(id, reason)]))
  {
  }

  /** A first result is stored; an equal one is accepted; a different one, one for a final row, and one that is
      not a known charge for a risk-released row are conflicts. */
  lemma RecordIs(t: Tables, s: Settlement, now: int)
    ensures RecordTx(t, s, now)
            == if s.id !in t.reservations then Abort(NotFound)
               else
                 var row := t.reservations[s.id];
                 if row.result == Some(s) then Commit(t)
                 else if row.result.Some? || row.status in {Settled, Released} then Abort(Conflict)
                 else if row.status == ReleasedUnknown && s.outcome != Known then Abort(Conflict)
                 else
                   Commit(t.(reservations := t.reservations[s.id :=
                               row.(result := Some(s), applied := false, version := row.version + 1,
                                    updatedAt := now)]))
  {
  }

  /** What the row an item draws on becomes is in range: a 64-bit balance, or three counters that are not
      negative; and so is the item's own released amount. */
  predicate ItemFits(t: Tables, it: Item, actual: int) {
    var refund := if it.held + it.committed > actual then it.held + it.committed - actual else 0;
    && -0x8000_0000_0000_0000 <= it.released + refund <= 0x7fff_ffff_ffff_ffff
    && match it.target
       case OnQuota(s) =>
         s in t.quotas ==>
           -0x8000_0000_0000_0000 <= t.quotas[s].balance + it.held + it.committed - actual <= 0x7fff_ffff_ffff_ffff
       case OnAccount(a) =>
         a in t.accounts ==>
           && 0 <= t.accounts[a].reserved - it.held <= 0x7fff_ffff_ffff_ffff
           && 0 <= t.accounts[a].committed + actual - it.committed <= 0x7fff_ffff_ffff_ffff
           && 0 <= t.accounts[a].released + refund <= 0x7fff_ffff_ffff_ffff
  }

  /** Settling one item: refused for a missing row or another currency, or out of range; else the quota gets
      back what was drawn and pays the charge, or the account's counters move by the difference. */
  lemma ItemIs(t: Tables, i: nat, s: Settlement, currency: Str)
    requires i < |t.items|
    ensures var it, tx := t.items[i], ApplyItem(t, i, s, currency);
            var refund := if it.held + it.committed > s.actual then it.held + it.committed - s.actual else 0;
            match it.target
            case OnQuota(q) =>
              if q !in t.quotas || Lower(t.quotas[q].currency) != currency then tx == Abort(CurrencyMismatch)
              else if !ItemFits(t, it, s.actual) then tx == Abort(CheckViolation)
              else
                tx == Commit(t.(quotas := t.quotas[q :=
                                  Quota(t.quotas[q].balance + it.held + it.committed - s.actual, t.quotas[q].currency)],
                                items := t.items[i := it.(held := 0, committed := s.actual,
                                                          released := it.released + refund)]))
            case OnAccount(a) =>
              if a !in t.accounts then tx == Abort(NotFound)
              else if !ItemFits(t, it, s.actual) then tx == Abort(CheckViolation)
              else
                && tx.Commit?
                && tx.tables.accounts
                   == t.accounts[a := t.accounts[a].(reserved := t.accounts[a].reserved - it.held,
                                                     committed := t.accounts[a].committed + s.actual - it.committed,
                                                     released := t.accounts[a].released + refund)]
                && tx.tables.items
                   == t.items[i := it.(held := 0, committed := s.actual, released := it.released + refund)]
                && tx.tables == t.(accounts := tx.tables.accounts, items := tx.tables.items, events := tx.tables.events)
  {
    hide Emit, Lower;
  }

  ghost predicate AllFit(t: Tables, i: nat, id: Str, actual: int) {
    forall j :: i <= j < |t.items| && t.items[j].reservation == id ==> ItemFits(t, t.items[j], actual)
  }

  lemma FitsElsewhere(t: Tables, w: Tables, i: nat, j: nat, s: Settlement, currency: Str)
    requires i < j < |t.items| && t.items[j].target != t.items[i].target
    requires ApplyItem(t, i, s, currency) == Commit(w)
    ensures |w.items| == |t.items| && w.items[j] == t.items[j]
    ensures ItemFits(w, t.items[j], s.actual) <==> ItemFits(t, t.items[j], s.actual)
  {
    hide ApplyItem, Lower;
    ItemIs(t, i, s, currency);
  }

  lemma {:induction false} ItemsGoThrough(t: Tables, i: nat, id: Str, s: Settlement)
    requires Linked(t) && UniqueDraws(t.items) && i <= |t.items| && id in t.reservations
    ensures ApplyItems(t, i, id, s, t.reservations[id].identity.currency).Commit? <==> AllFit(t, i, id, s.actual)
    decreases |t.items| - i
  {
    hide ApplyItem, ItemFits, Linked;
    var currency := t.reservations[id].identity.currency;
    if i < |t.items| {
      if t.items[i].reservation != id {
        ItemsGoThrough(t, i + 1, id, s);
      } else {
        OneGoesThrough(t, i, s);
        var tx := ApplyItem(t, i, s, currency);
        if tx.Commit? {
          StaysLinked(t, i, s, currency);
          ItemsGoThrough(tx.tables, i + 1, id, s);
          forall j | i < j < |t.items| && t.items[j].reservation == id
            ensures tx.tables.items[j] == t.items[j]
            ensures ItemFits(tx.tables, t.items[j], s.actual) <==> ItemFits(t, t.items[j], s.actual)
          {
            FitsElsewhere(t, tx.tables, i, j, s, currency);
          }
        }
      }
    }
  }

  lemma OneGoesThrough(t: Tables, i: nat, s: Settlement)
    requires Linked(t) && i < |t.items|
    ensures t.items[i].reservation in t.reservations
    ensures ApplyItem(t, i, s, t.reservations[t.items[i].reservation].identity.currency).Commit?
            <==> ItemFits(t, t.items[i], s.actual)
  {
    hide ApplyItem, Lower, ItemFits;
    assert ItemLinked(t, t.items[i]);
    ItemIs(t, i, s, t.reservations[t.items[i].reservation].identity.currency);
  }

  lemma StaysLinked(t: Tables, i: nat, s: Settlement, currency: Str)
    requires Linked(t) && UniqueDraws(t.items) && i < |t.items| && ApplyItem(t, i, s, currency).Commit?
    ensures var w := ApplyItem(t, i, s, currency).tables;
            && Linked(w) && UniqueDraws(w.items) && w.reservations == t.reservations && |w.items| == |t.items|
            && forall j :: 0 <= j < |t.items| ==> w.items[j].reservation == t.items[j].reservation
  {
    hide ApplyItem, Lower, Linked;
    var w := ApplyItem(t, i, s, currency).tables;
    ItemIs(t, i, s, currency);
    ApplyItemExtends(t, i, s, currency);
    LinkedKept(t, w);
  }

  /** In every reachable state a settlement goes through if and only if what each of the reservation's items
      draws on stays in its column range. */
  lemma SettlementGoesThrough(steps: seq<Step>, id: Str, s: Settlement, status: Status, now: int)
    requires id in Run(EMPTY, steps).reservations
    ensures var t := Run(EMPTY, steps);
            ApplyReservation(t, id, s, status, now).Commit? <==>
              forall j :: 0 <= j < |t.items| && t.items[j].reservation == id ==> ItemFits(t, t.items[j], s.actual)
  {
    hide Run, ApplyItems, Linked, UniqueDraws, ItemFits;
    RunConserves(steps, []);
    RunUniqueDraws(steps);
    ItemsGoThrough(Run(EMPTY, steps), 0, id, s);
  }

  /** The row, usage rows and events that settling leaves. */
  lemma SettlementWrites(t: Tables, id: Str, s: Settlement, status: Status, now: int)
    requires id in t.reservations && status in {Settled, Released, ReleasedUnknown}
    requires ApplyReservation(t, id, s, status, now).Commit?
    ensures var u, row := ApplyReservation(t, id, s, status, now).tables, t.reservations[id];
            && u.reservations
               == t.reservations[id :=
                    if status == ReleasedUnknown
                    then row.(status := status, actual := None, reason := s.reason, version := row.version + 1,
                              updatedAt := now)
                    else row.(status := status, actual := Some(s.actual), reason := s.reason, result := Some(s),
                              applied := true, version := row.version + 1, updatedAt := now)]
            && u.usage == t.usage + (if s.outcome == Known && s.usage.Some? then [UsageRow(id, s.usage.value)] else [])
            && t.events <= u.events
            && (if s.attemptRisk then u.events != [] && u.events[|u.events| - 1] == AttemptRisk(id)
                else forall i :: |t.events| <= i < |u.events| ==> u.events[i].Threshold? || u.events[i].Overspend?)
  {
    hide ApplyItems, ItemsSettled, Extends;
    ApplyReservationEffect(t, id, s, status, now);
    ItemEvents(t, 0, id, s, t.reservations[id].identity.currency);
  }

  /** Settling items adds no event but thresholds and overspends. */
  lemma {:induction false} ItemEvents(t: Tables, i: nat, id: Str, s: Settlement, currency: Str)
    requires i <= |t.items| && ApplyItems(t, i, id, s, currency).Commit?
    ensures var u := ApplyItems(t, i, id, s, currency).tables;
            && t.events <= u.events
            && forall j :: |t.events| <= j < |u.events| ==> u.events[j].Threshold? || u.events[j].Overspend?
    decreases |t.items| - i
  {
    hide ApplyItem;
    if i < |t.items| {
      if t.items[i].reservation != id {
        ItemEvents(t, i + 1, id, s, currency);
      } else {
        OneItemEvents(t, i, s, currency);
        ItemEvents(ApplyItem(t, i, s, currency).tables, i + 1, id, s, currency);
      }
    }
  }

  lemma OneItemEvents(t: Tables, i: nat, s: Settlement, currency: Str)
    requires i < |t.items| && ApplyItem(t, i, s, currency).Commit?
    ensures var u := ApplyItem(t, i, s, currency).tables;
            && |u.items| == |t.items| && t.events <= u.events
            && forall j :: |t.events| <= j < |u.events| ==> u.events[j].Threshold? || u.events[j].Overspend?
  {
    hide Emit, Lower;
    var it := t.items[i];
    if it.target.OnAccount? {
      var key := it.target.account;
      var charged := t.(accounts := t.accounts[key := SettleAccount(t.accounts[key], it, s.actual)]);
      if key.policy < |t.policies| {
        EmitIsSound(charged, key, Some(it.reservation));
      } else {
        NothingToEmit(charged, key, Some(it.reservation));
      }
    }
  }

  lemma NothingToEmit(t: Tables, key: AccountKey, cause: Option<Str>)
    requires key.policy >= |t.policies|
    ensures Emit(t, key, cause) == t.events
  {
  }

  /** Applying a pending result: as settled, or released when nothing was charged; once. */
  lemma ApplyIs(t: Tables, dir: Directory, id: Str, now: int)
    ensures ApplyTx(t, dir, id, now)
            == if id !in t.reservations || t.reservations[id].tenant !in dir.tenants.Values then Abort(NotFound)
               else
                 var row := t.reservations[id];
                 if row.applied then Commit(t)
                 else if row.result.None? then Abort(Conflict)
                 else
                   ApplyReservation(t, id, row.result.value,
                                    if row.result.value.outcome == NoCharge then Released else Settled,
                                    now)
  {
    hide ApplyReservation;
  }

  /** `Finish` refuses a settlement without id, with a negative charge, or with a charge or usage where nothing
      is known; marks an unconfirmed one; records and applies any other. */
  lemma FinishIs(t: Tables, dir: Directory, s: Settlement, now: int)
    ensures Finished(t, dir, s, now)
            == if s.id == [] || s.actual < 0 || (s.outcome != Known && (s.actual != 0 || s.usage.Some?))
               then (t, Some(InvalidPolicy))
               else if s.outcome == Uncertain then
                 match MarkUnknownTx(t, dir, s.id, s.reason, now)
                 case Commit(u) => (u, None)
                 case Abort(e) => (t, Some(e))
               else
                 match RecordTx(t, s, now)
                 case Abort(e) => (t, Some(e))
                 case Commit(u) =>
                   match ApplyTx(u, dir, s.id, now)
                   case Commit(v) => (v, None)
                   case Abort(e) => (u, Some(e))
  {
    hide MarkUnknownTx, RecordTx, ApplyTx;
  }

  // ---------------------------------------------------------------------------------------
  // Operators
  // ---------------------------------------------------------------------------------------

  /** A version, an operator, a reason and evidence; a charge exactly for a settle. */
  ghost predicate SoundResolution(res: Resolution) {
    && res.version > 0 && res.operator > 0 && HasText(res.reason) && HasText(res.evidence)
    && (if res.action == Settle then res.actual.Some? && res.actual.value >= 0 else res.actual.None?)
  }

  lemma SoundResolutionIs(res: Resolution)
    ensures SoundResolution(res) <==> ValidResolution(res)
  {
    hide Blank, HasText;
    HasTextIs(res.reason);
    HasTextIs(res.evidence);
  }

  /** An operator settles, releases or releases at risk an unknown row, or settles a risk-released one, at the
      version that was read and while no result is there. The act is recorded. */
  lemma ResolveIs(t: Tables, dir: Directory, tenant: int, id: Str, res: Resolution, now: int)
    ensures var tx := ResolveTx(t, dir, tenant, id, res, now);
            if !SoundResolution(res) then tx == Abort(InvalidPolicy)
            else if tenant !in dir.tenants.Values || id !in t.reservations || t.reservations[id].tenant != tenant
            then tx == Abort(NotFound)
            else
              var row := t.reservations[id];
              if row.version != res.version || row.result.Some?
                 || !(row.status == Unknown || (row.status == ReleasedUnknown && res.action == Settle))
              then tx == Abort(Conflict)
              else
                var charge := if res.actual.Some? then res.actual.value else 0;
                var s := Settlement(id, if res.action == Settle then Known else NoCharge, charge, res.reason, false,
                                    None);
                var status := match res.action
                              case Settle => Settled
                              case Release => Released
                              case ReleaseUnknown => ReleasedUnknown;
                match ApplyReservation(t, id, s, status, now)
                case Abort(e) => tx == Abort(e)
                case Commit(u) =>
                  tx == Commit(u.(events := u.events
                                  + [Resolved(id, res.action, charge, res.operator, res.reason, res.evidence)]))
  {
    hide ApplyReservation, Blank, HasText, SoundResolution;
    SoundResolutionIs(res);
  }

  /** A patch needs a version, a limit that is not negative, the tenant's own policy at that version and a
      period now; it then sets the policy's limit, switch and version and the limit of the current account. */
  lemma PatchIs(t: Tables, dir: Directory, tenant: int, id: nat, patch: Patch, now: int)
    ensures var tx := PatchTx(t, dir, tenant, id, patch, now);
            if patch.version <= 0 || (patch.limit.Some? && patch.limit.value < 0) then tx == Abort(InvalidPolicy)
            else if tenant !in dir.tenants.Values || id >= |t.policies| || t.policies[id].tenant != tenant
            then tx == Abort(NotFound)
            else if t.policies[id].version != patch.version then tx == Abort(Conflict)
            else
              var p := t.policies[id];
              var bounds := PeriodBounds(dir.zones, now, p.period, p.timezone);
              if bounds.None? then tx == Abort(InvalidPolicy)
              else
                var limit := if patch.limit.Some? then patch.limit.value else p.limit;
                var key := AccountKey(id, bounds.value.0);
                && tx.Commit?
                && tx.tables.policies
                   == t.policies[id := p.(limit := limit,
                                          enabled := if patch.enabled.Some? then patch.enabled.value else p.enabled,
                                          version := p.version + 1)]
                && tx.tables.accounts
                   == (if key in t.accounts then t.accounts[key := t.accounts[key].(limit := limit)] else t.accounts)
                && tx.tables
                   == t.(policies := tx.tables.policies, accounts := tx.tables.accounts, events := tx.tables.events)
  {
    hide PeriodBounds, Emit;
  }

  /** A name of at most 200 bytes that is not blank, a limit that is not negative, a currency of three letters,
      distinct percentages, a period in a known zone, and one of three environments where one is asked for. */
  ghost predicate SoundSpec(spec: Policy, dir: Directory, now: int) {
    && HasText(spec.name) && |spec.name| <= 200 && spec.limit >= 0 && IsCurrency(spec.currency)
    && AllPercentages(spec.thresholds) && AllDifferent(spec.thresholds)
    && PeriodBounds(dir.zones, now, spec.period, spec.timezone).Some?
    && (spec.scope.OfApplicationEnv? ==>
          spec.scope.env in {[100, 101, 118], [115, 116, 97, 103, 105, 110, 103], [112, 114, 111, 100]})
  }

  /** The tenant has the group, application or key that the policy is for. */
  ghost predicate OwnedSpec(spec: Policy, dir: Directory) {
    match spec.scope
    case TenantWide => true
    case OfGroup(g) => g > 0 && exists name :: (spec.tenant, name) in dir.groups && dir.groups[(spec.tenant, name)] == g
    case OfApplication(a) => a > 0 && (spec.tenant, a) in dir.apps
    case OfApplicationEnv(a, _) => a > 0 && (spec.tenant, a) in dir.apps
    case OfKey(k) => (spec.tenant, k) in dir.keys
  }

  lemma SoundSpecIs(spec: Policy, dir: Directory, now: int)
    ensures SoundSpec(spec, dir, now) <==> ValidSpec(NormalizedSpec(spec), dir, now)
  {
    hide PeriodBounds, ValidThresholds, ValidCurrency, IsCurrency, HasText, Blank, Lower, SortInts, AllPercentages,
         AllDifferent;
    ThresholdsAre(spec.thresholds);
    HasTextIs(spec.name);
    IsCurrencyIs(spec.currency);
    SameBounds(spec, dir, now);
  }

  lemma SameBounds(spec: Policy, dir: Directory, now: int)
    ensures PeriodBounds(dir.zones, now, spec.period, NormalizedSpec(spec).timezone)
            == PeriodBounds(dir.zones, now, spec.period, spec.timezone)
  {
    hide BoundsIn, Lower, SortInts;
  }

  lemma OwnedSpecIs(spec: Policy, dir: Directory)
    ensures OwnedSpec(spec, dir) <==> ScopeOwned(dir, spec.tenant, spec.scope)
  {
    if spec.scope.OfGroup? && ScopeOwned(dir, spec.tenant, spec.scope) {
      var name :| name in dir.groups && name.0 == spec.tenant && dir.groups[name] == spec.scope.group;
      assert (spec.tenant, name.1) == name;
    }
  }

  predicate AllDifferent(s: seq<int>) {
    forall i, j :: 0 <= i < j < |s| ==> s[i] != s[j]
  }

  predicate AllPercentages(s: seq<int>) {
    forall i :: 0 <= i < |s| ==> 1 <= s[i] <= 100
  }

  /** Sorted thresholds ascend strictly exactly when no two given ones are equal. */
  lemma ThresholdsAre(given: seq<int>)
    ensures ValidThresholds(SortInts(given)) <==> AllPercentages(given) && AllDifferent(given)
  {
    hide SortInts, AllDifferent, AllPercentages;
    SortKeeps(given);
    SamePercentages(given, SortInts(given));
    SameDifferent(given, SortInts(given));
    AscendStrictly(SortInts(given));
  }

  lemma SamePercentages(a: seq<int>, b: seq<int>)
    requires multiset(a) == multiset(b)
    ensures AllPercentages(a) <==> AllPercentages(b)
  {
    forall i | 0 <= i < |a| ensures exists j :: 0 <= j < |b| && b[j] == a[i] {
      assert a[i] in multiset(b);
    }
    forall i | 0 <= i < |b| ensures exists j :: 0 <= j < |a| && a[j] == b[i] {
      assert b[i] in multiset(a);
    }
  }

  lemma SameDifferent(a: seq<int>, b: seq<int>)
    requires multiset(a) == multiset(b)
    ensures AllDifferent(a) <==> AllDifferent(b)
  {
    hide AllDifferent;
    DistinctByCount(a);
    DistinctByCount(b);
  }

  lemma AscendStrictly(s: seq<int>)
    requires Ascending(s)
    ensures ValidThresholds(s) <==> AllPercentages(s) && AllDifferent(s)
  {
    if AllDifferent(s) {
      assert forall i, j :: 0 <= i < j < |s| ==> s[i] != s[j] && s[i] <= s[j];
    }
  }

  lemma SortKeeps(given: seq<int>)
    ensures Ascending(SortInts(given)) && multiset(SortInts(given)) == multiset(given)
  {
  }

  lemma DistinctByCount(s: seq<int>)
    ensures AllDifferent(s) <==> forall x :: multiset(s)[x] <= 1
  {
    if AllDifferent(s) {
      forall x ensures multiset(s)[x] <= 1 {
        OnceEach(s, x);
      }
    }
    forall i, j | 0 <= i < j < |s| && s[i] == s[j] ensures multiset(s)[s[i]] >= 2 {
      assert s == s[..j] + s[j..];
      assert s[..j][i] in multiset(s[..j]) && s[j..][0] in multiset(s[j..]);
    }
  }

  lemma {:induction false} OnceEach(s: seq<int>, x: int)
    requires AllDifferent(s)
    ensures multiset(s)[x] <= 1
  {
    if s != [] {
      assert s == [s[0]] + s[1..];
      OnceEach(s[1..], x);
      if x == s[0] {
        assert forall k :: 0 <= k < |s[1..]| ==> s[1..][k] != x;
        assert x !in multiset(s[1..]);
      }
    }
  }

  /** A sound and owned policy is added as it was given, with its time zone named, its currency in lower case
      and its thresholds in ascending order; enabled, at version 1. */
  lemma CreateIs(t: Tables, dir: Directory, spec: Policy, now: int)
    ensures var tx := CreateTx(t, dir, spec, now);
            if !SoundSpec(spec, dir, now) then tx == Abort(InvalidPolicy)
            else if spec.tenant !in dir.tenants.Values then tx == Abort(NotFound)
            else if !OwnedSpec(spec, dir) then tx == Abort(InvalidPolicy)
            else
              && tx.Commit? && |tx.tables.policies| == |t.policies| + 1
              && tx.tables == t.(policies := t.policies + [tx.tables.policies[|t.policies|]])
              && var p := tx.tables.policies[|t.policies|];
                 && p == spec.(timezone := if spec.timezone == [] then [85, 84, 67] else spec.timezone,
                               currency := Lower(spec.currency), thresholds := p.thresholds, enabled := true,
                               version := 1)
                 && multiset(p.thresholds) == multiset(spec.thresholds)
                 && forall i, j :: 0 <= i < j < |p.thresholds| ==> p.thresholds[i] < p.thresholds[j]
  {
    hide SoundSpec, OwnedSpec, ScopeOwned, Lower, SortInts, PeriodBounds, Blank, ValidCurrency;
    SoundSpecIs(spec, dir, now);
    OwnedSpecIs(spec, dir);
    SortKeeps(spec.thresholds);
  }

  /** A top-up names a scope, well formed if it is a group's, and a currency, the scope's own if it has one; it
      adds to the balance, from nothing for a new scope, within 64 bits. */
  lemma TopUpIs(t: Tables, scope: Str, delta: int, cur: Str)
    ensures var balance := if scope in t.quotas then t.quotas[scope].balance else 0;
            TopUpTx(t, scope, delta, cur)
            == if [103, 114, 111, 117, 112, 58] <= scope && ParseGroupScope(scope).None? then Abort(InvalidPolicy)
               else if !IsCurrency(cur) then Abort(InvalidPolicy)
               else if scope in t.quotas && Lower(t.quotas[scope].currency) != Lower(cur) then Abort(CurrencyMismatch)
               else if !(-0x8000_0000_0000_0000 <= balance + delta <= 0x7fff_ffff_ffff_ffff) then Abort(CheckViolation)
               else
                 Commit(t.(quotas := t.quotas[scope :=
                             Quota(balance + delta,
                                   if scope in t.quotas then t.quotas[scope].currency else Lower(cur))]))
  {
    hide ParseGroupScope, Lower, ValidCurrency, IsCurrency;
    IsCurrencyIs(cur);
  }
}
