/**
 One non-streaming request from candidate selection to the settlement that is due for it
 (`internal/proxy/router.go`).
 */
module Gateway {
  import opened Text
  import opened Cost
  import opened Dispatch
  import opened Breaker
  import opened Selection
  import opened Routing
  import opened Billing
  import opened Tables
  import opened Transactions
  import opened History
  import Conservation
  import opened Lifecycle
  import opened ExactlyOnce
  import opened Outcomes
  import opened Store

  /** The marks of one request with their clock readings. */
  function Stamped(marks: seq<(EndpointKey, bool)>, clock: nat -> (int, int)): seq<Mark> {
    seq(|marks|, i requires 0 <= i < |marks| =>
      if marks[i].1 then Mark.Success(marks[i].0) else Mark.Failure(marks[i].0, clock(i).0, clock(i).1))
  }

  function ApplyAll(cfg: Config, states: States, marks: seq<Mark>): States {
    if marks == [] then states else Apply(cfg, ApplyAll(cfg, states, marks[..|marks| - 1]), marks[|marks| - 1])
  }

  method MarkAll(b: CircuitBreaker, marks: seq<(EndpointKey, bool)>, clock: nat -> (int, int))
    modifies b
    ensures b.states == ApplyAll(b.cfg, old(b.states), Stamped(marks, clock))
  {
    var all := Stamped(marks, clock);
    for i := 0 to |marks|
      invariant b.states == ApplyAll(b.cfg, old(b.states), all[..i])
    {
      assert all[..i + 1][..i] == all[..i];
      if marks[i].1 {
        b.MarkSuccess(marks[i].0);
      } else {
        b.MarkFailure(marks[i].0, clock(i).0, clock(i).1);
      }
    }
    assert all[..|marks|] == all;
  }

  /** The settlement a course must lead to. */
  ghost predicate Matches(d: Dispatcher, caller: Caller, c: Course, s: Settlement) {
    var charge := CourseCharge(d, caller.alias, c);
    && (s.outcome == NoCharge <==> forall j :: 0 <= j < |c.tries| ==> NeverCharged(c.tries[j].reply))
    && (s.outcome == Known <==> charge.Some?)
    && (charge.Some? ==> s.actual == charge.value)
    && (s.attemptRisk <==> charge.Some? && |c.tries| > 1)
    && (s.usage.Some? <==> charge.Some?)
    && (s.usage.Some? ==> Receipts(d, caller, c.tries[|c.tries| - 1], s.actual, s.usage.value))
  }

  /** Selects candidates, runs the failover loop, records its breaker marks and stores the answer on the
      context. Whatever the strategy, the breakers and the upstreams do, the settlement then due is the
      one the calls made stand for. */
  method Serve(router: Router, d: Dispatcher, b: CircuitBreaker, c: Context, dyn: Dynamic, score: Str -> nat,
               protocol: Str, randn: (nat, nat) -> nat, clock: nat -> int, stamps: nat -> (int, int), w: World)
    returns (r: DispatchResult, ghost names: seq<Str>, ghost order: seq<RouteProvider>)
    requires Draws(randn)
    requires c.flags == CLEAR && c.snapshot == Some(Dispatch.Snapshot(d, c.caller.alias, protocol))
    modifies router, b, c`flags, c`usage, c`hit
    ensures forall i :: 0 <= i < |names| ==> OnRoute(RouteFor(d, c.caller.alias), names[i])
    ensures names == [] <==> RouteFor(d, c.caller.alias).providers == []
    ensures c.caller.alias in d.routes || WILDCARD in d.routes ==>
              && Ordered(order, RouteFor(d, c.caller.alias), old(router.cursors), c.caller.alias, score, randn)
              && Filtered(names, d, b.cfg, old(b.states), Names(order), protocol, clock)
    ensures var course := CourseFrom(d, c.caller.alias, Keys(d, names, protocol), w, 0);
            && r == ResultOf(d, c.caller.alias, Keys(d, names, protocol), w, course)
            && Matches(d, c.caller, course, Due(c, dyn))
            && b.states == ApplyAll(b.cfg, old(b.states), Stamped(Marks(course.tries), stamps))
  {
    hide CourseFrom, ResultOf, NoteAll, Marks, Keys, Filtered, StableSort, DrawnOrder, Matches, Draws, ApplyAll,
         Ordered, SettlementOf, Dispatch.Snapshot, Advance;
    var candidates;
    candidates, order := router.Candidates(d, b, c.caller.alias, score, protocol, randn, clock);
    var list := [];
    if candidates.Some? {
      list := candidates.value;
    }
    names := list;
    assert list != [] ==> OnRoute(RouteFor(d, c.caller.alias), list[0]);
    var marks;
    r, marks := Forward(d, c, c.caller.alias, list, protocol, w);
    MarkAll(b, marks, stamps);
    c.usage := r.usage;
    c.hit := if r.key.Some? then r.key.value else EndpointKey([], []);
    Classified(d, list, protocol, w, c.caller, c.reservation);
  }

  lemma Classified(d: Dispatcher, names: seq<Str>, protocol: Str, w: World, caller: Caller, id: Str)
    requires forall i :: 0 <= i < |names| ==> OnRoute(RouteFor(d, caller.alias), names[i])
    ensures var keys := Keys(d, names, protocol);
            var course := CourseFrom(d, caller.alias, keys, w, 0);
            var r := ResultOf(d, caller.alias, keys, w, course);
            Matches(d, caller, course,
                    SettlementOf(id, caller, NoteAll(CLEAR, course.tries), r.usage, HitOf(r),
                                 PriceOf(Dispatch.Snapshot(d, caller.alias, protocol).models, caller.alias,
                                         HitOf(r).provider)))
  {
    hide CourseFrom, ResultOf, NoteAll, Keys, OnRoute, RouteFor, SettlementOf, PriceOf, CourseCharge, Dispatch.Snapshot;
    Classification(d, names, protocol, w, caller, id);
  }

  // ---------------------------------------------------------------------------------------
  // One request from reservation to the deferred finalizer
  // ---------------------------------------------------------------------------------------

  /** The reservation is still open and without a result when the request comes to settle it. */
  ghost predicate Settleable(t: Tables, dir: Directory, id: Str) {
    && id in t.reservations && Lifecycle.Open(t.reservations[id].status) && t.reservations[id].result.None?
    && TenantExists(dir, t.reservations[id].tenant)
  }

  /** How a course of calls ends the reservation: charged in full with one usage row, released with
      none, or parked in unknown with every item still held. */
  ghost predicate EndsAs(d: Dispatcher, caller: Caller, c: Course, t: Tables, u: Tables, id: Str) {
    var charge := CourseCharge(d, caller.alias, c);
    && id in u.reservations
    && var row, usage := u.reservations[id], UsageFor(u.usage, id);
       if charge.Some? then
         && row.status == Settled && row.actual == charge && Settles(t, u, id, charge.value)
         && |usage| == 1 && Receipts(d, caller, c.tries[|c.tries| - 1], charge.value, usage[0])
       else if forall j :: 0 <= j < |c.tries| ==> NeverCharged(c.tries[j].reply) then
         row.status == Released && row.actual == Some(0) && Settles(t, u, id, 0) && usage == []
       else
         && row.status == Unknown && row.result.None? && usage == []
         && u.quotas == t.quotas && u.accounts == t.accounts && u.items == t.items
  }

  lemma CourseEnds(d: Dispatcher, caller: Caller, c: Course, t: Tables, dir: Directory, s: Settlement, now: int)
    requires Inv(t) && Settleable(t, dir, s.id) && ValidSettlement(s) && Matches(d, caller, c, s)
    requires Finished(t, dir, s, now).1.None?
    ensures EndsAs(d, caller, c, t, Finished(t, dir, s, now).0, s.id)
  {
    hide Finished, Settles, UsageFor, CourseCharge, Conservation.Books, Conservation.Linked, RowsOk, ItemsOk,
         ReceiptsOk;
    var u := Finished(t, dir, s, now).0;
    FinishEndsRequest(t, dir, s, now);
    RowIsOk(u, s.id);
    Receipt(u, s.id);
    if s.outcome == Uncertain {
      UnknownHasNoResult(t, dir, s, now);
    }
    ChargedHasTry(d, caller.alias, c);
  }

  lemma ChargedHasTry(d: Dispatcher, alias: Str, c: Course)
    ensures CourseCharge(d, alias, c).Some? ==> c.tries != []
  {
  }

  lemma UnknownHasNoResult(t: Tables, dir: Directory, s: Settlement, now: int)
    requires Settleable(t, dir, s.id) && ValidSettlement(s) && s.outcome == Uncertain
    ensures var u := Finished(t, dir, s, now).0; s.id in u.reservations && u.reservations[s.id].result.None?
  {
  }

  /** Nothing but this request's own dispatch markers. */
  predicate OnlyMarkers(steps: seq<Step>, id: Str) {
    forall i :: 0 <= i < |steps| ==> steps[i].DispatchStep? && steps[i].id == id
  }

  lemma {:induction false} MarkersKeepSettleable(t: Tables, steps: seq<Step>, dir: Directory, id: Str)
    requires OnlyMarkers(steps, id) && Settleable(t, dir, id)
    ensures Settleable(Run(t, steps), dir, id)
  {
    if steps != [] {
      var n := |steps| - 1;
      MarkersKeepSettleable(t, steps[..n], dir, id);
      assert steps[n].DispatchStep? && steps[n].id == id;
    }
  }

  lemma ReservedIsSettleable(t: Tables, dir: Directory, req: Request, now: int)
    requires ReserveTx(t, dir, req, now).Commit? && req.id !in t.reservations
    ensures req.id != [] && Settleable(ReserveTx(t, dir, req, now).tables, dir, req.id)
  {
    hide ReserveTx, QuotasKept, AccountsKept;
    ReserveEffect(t, dir, req, now);
  }

  lemma ReservedHasId(t: Tables, dir: Directory, req: Request, now: int)
    requires ReserveTx(t, dir, req, now).Commit?
    ensures req.id != []
  {
    hide DebitScopes, DebitBudgets;
  }

  lemma AtMostOneReceipt(t: Tables, id: Str)
    requires Inv(t)
    ensures |UsageFor(t.usage, id)| <= 1
  {
    hide UsageFor;
    Receipt(t, id);
  }

  /** Reserving, and what comes before the answer: any steps `during` the upstream calls. */
  method Admit(c: Context, repo: Repo, dir: Directory, dyn: Dynamic, configured: int, newId: Option<Str>, prices: Str,
               now: int, during: seq<Step>)
    requires Inv(repo.tables) && c.reservation == [] && c.hooks == None && c.rejectStatus == None && c.snapshot.Some?
    modifies c`snapshot, c`reserved, c`reservation, c`hooks, c`rejectStatus, repo
    ensures Inv(repo.tables) && c.snapshot == old(c.snapshot)
    ensures c.rejectStatus.Some? ==> repo.tables == old(repo.tables)
    ensures c.rejectStatus.None? ==>
              && newId == Some(c.reservation) == c.hooks && c.reservation != []
              && (c.reservation !in old(repo.tables).reservations && OnlyMarkers(during, c.reservation) ==>
                    Settleable(repo.tables, dir, c.reservation))
  {
    hide Inv, Run, Settleable, OnlyMarkers, ReserveTx, EstimateOf, AliasUpstreams, ModelCurrency, FirstModel;
    ghost var t := repo.tables;
    Billing.Reserve(c, repo, dir, dyn, configured, newId, prices, now);
    if c.rejectStatus.Some? {
      return;
    }
    ghost var currency := ModelCurrency(FirstModel(c.snapshot.value.models, c.caller.alias));
    ghost var req := RequestOf(c.caller, newId.value, currency.value, c.reserved, prices);
    NextKeepsInv(t, ReserveStep(dir, req, now));
    ReservedHasId(t, dir, req, now);
    ghost var reserved := repo.tables;
    repo.tables := Run(repo.tables, during);
    RunKeepsInv(reserved, during);
    if c.reservation !in t.reservations && OnlyMarkers(during, c.reservation) {
      ReservedIsSettleable(t, dir, req, now);
      MarkersKeepSettleable(reserved, during, dir, c.reservation);
    }
  }

  /** A whole request in accounting mode: reserve, serve, settle, and settle again from the deferred
      finalizer. Other clients' transactions, recovery runs, operators and this request's own dispatch
      markers come as any steps `during` the upstream calls and `after` the first settlement; `t` and `u`
      are the tables just before and just after that settlement. A rejected request changes nothing. A
      request that finds its reservation still open ends it as its calls dictate; from then on a charged
      or released reservation never changes again, and the second settlement has no effect. */
  method Handle(router: Router, d: Dispatcher, b: CircuitBreaker, c: Context, repo: Repo, dir: Directory, dyn: Dynamic,
                configured: int, newId: Option<Str>, prices: Str, score: Str -> nat, protocol: Str,
                randn: (nat, nat) -> nat, clock: nat -> int, stamps: nat -> (int, int), w: World, during: seq<Step>,
                after: seq<Step>, times: (int, int, int))
    returns (answer: Option<DispatchResult>, first: Option<Error>, ghost names: seq<Str>, ghost t: Tables,
             ghost u: Tables)
    requires Draws(randn) && Inv(repo.tables)
    requires c.flags == CLEAR && c.reservation == [] && c.hooks == None && !c.done && c.rejectStatus == None
    requires c.snapshot == Some(Dispatch.Snapshot(d, c.caller.alias, protocol))
    modifies router, b, c, repo
    ensures Inv(repo.tables) && forall id :: |UsageFor(repo.tables.usage, id)| <= 1
    ensures c.rejectStatus.Some? ==> answer == None && repo.tables == old(repo.tables)
    ensures c.rejectStatus.None? ==>
              var course := CourseFrom(d, c.caller.alias, Keys(d, names, protocol), w, 0);
              && newId == Some(c.reservation) == c.hooks
              && answer == Some(ResultOf(d, c.caller.alias, Keys(d, names, protocol), w, course))
              && Matches(d, c.caller, course, Due(c, dyn))
              && (newId.value !in old(repo.tables).reservations && OnlyMarkers(during, newId.value) ==>
                    Settleable(t, dir, c.reservation))
              && u == Finished(t, dir, Due(c, dyn), times.1).0 && first == Finished(t, dir, Due(c, dyn), times.1).1
              && (Settleable(t, dir, c.reservation) && first.None? ==>
                    && EndsAs(d, c.caller, course, t, u, c.reservation)
                    && (Final(u.reservations[c.reservation].status) ==> Frozen(u, repo.tables, c.reservation)))
              && repo.tables == (if first.None? then Run(u, after)
                                 else Finished(Run(u, after), dir, Due(c, dyn), times.2).0)
  {
    hide CourseFrom, Keys, Matches, Draws, Finished, Inv, Run, Settleable, EndsAs, OnlyMarkers, ReserveTx, EstimateOf,
         AliasUpstreams, ModelCurrency, FirstModel, UsageFor, Frozen, SettlementOf, Ordered, Filtered, Stamped,
         ApplyAll, OnRoute, RouteFor, Marks, Dispatch.Snapshot, HitPrice, ResultOf;
    answer, first, names, t, u := None, None, [], repo.tables, repo.tables;
    Admit(c, repo, dir, dyn, configured, newId, prices, times.0, during);
    if c.rejectStatus.Some? {
      AllReceipts(repo.tables);
      return;
    }
    t := repo.tables;
    var result;
    ghost var order;
    result, names, order := Serve(router, d, b, c, dyn, score, protocol, randn, clock, stamps, w);
    answer := Some(result);
    DueIsValid(c, dyn);
    first, u := Conclude(c, repo, dir, dyn, after, times.1, times.2);
    if Settleable(t, dir, c.reservation) && first.None? {
      ghost var course := CourseFrom(d, c.caller.alias, Keys(d, names, protocol), w, 0);
      CourseEnds(d, c.caller, course, t, dir, Due(c, dyn), times.1);
      EndsInTables(d, c.caller, course, t, u, c.reservation);
    }
    AllReceipts(repo.tables);
  }

  /** The settlement after the answer, whatever others do next, and the deferred finalizer. */
  method Conclude(c: Context, repo: Repo, dir: Directory, dyn: Dynamic, after: seq<Step>, now: int, later: int)
    returns (first: Option<Error>, ghost u: Tables)
    requires Inv(repo.tables) && c.reservation != [] && !c.done && ValidSettlement(Due(c, dyn))
    modifies c`flags, c`done, repo
    ensures Inv(repo.tables) && Due(c, dyn) == old(Due(c, dyn))
    ensures (u, first) == Finished(old(repo.tables), dir, Due(c, dyn), now) && Inv(u)
    ensures c.reservation in u.reservations && Final(u.reservations[c.reservation].status) ==>
              Frozen(u, Run(u, after), c.reservation)
    ensures repo.tables == if first.None? then Run(u, after) else Finished(Run(u, after), dir, Due(c, dyn), later).0
  {
    hide Finished, Inv, Run, Frozen, Due, FlagsAfter;
    ghost var t := repo.tables;
    first := Billing.Settle(c, repo, dir, dyn, now);
    u := repo.tables;
    FinishKeepsInv(t, dir, Due(c, dyn), now);
    RunKeepsInv(u, after);
    if c.reservation in u.reservations && Final(u.reservations[c.reservation].status) {
      AppliedIsFinal(u, after, c.reservation);
    }
    repo.tables := Run(repo.tables, after);
    var _ := Billing.Settle(c, repo, dir, dyn, later);
    FinishKeepsInv(Run(u, after), dir, Due(c, dyn), later);
  }

  lemma AllReceipts(t: Tables)
    requires Inv(t)
    ensures forall id :: |UsageFor(t.usage, id)| <= 1
  {
    hide UsageFor, Inv;
    forall id ensures |UsageFor(t.usage, id)| <= 1 {
      AtMostOneReceipt(t, id);
    }
  }

  lemma FinishKeepsInv(t: Tables, dir: Directory, s: Settlement, now: int)
    requires Inv(t)
    ensures Inv(Finished(t, dir, s, now).0)
  {
    hide Inv, Finished, Run;
    FinishIsRun(t, dir, s, now);
    RunKeepsInv(t, FinishSteps(t, dir, s, now));
  }

  lemma DueIsValid(c: Context, dyn: Dynamic)
    requires c.reservation != []
    ensures ValidSettlement(Due(c, dyn)) && Due(c, dyn).id == c.reservation
  {
    hide RecordOf, CheckedCost, HitPrice;
    SettlementIsValid(c.reservation, c.caller, c.flags, c.usage, c.hit, HitPrice(c, dyn));
  }

  lemma EndsInTables(d: Dispatcher, caller: Caller, c: Course, t: Tables, u: Tables, id: Str)
    requires EndsAs(d, caller, c, t, u, id)
    ensures id in u.reservations
  {
  }
}
