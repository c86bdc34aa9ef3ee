/**
 The router (`internal/proxy/router_select.go`): round robin, weighted order, health filtering and the
 candidate list the failover loop walks.
 */
module Routing {
  import opened Text
  import opened Dispatch
  import opened Breaker
  import opened Selection

  // ---------------------------------------------------------------------------------------
  // Round robin
  // ---------------------------------------------------------------------------------------

  function CursorOf(cursors: map<Str, nat>, alias: Str): nat {
    if alias in cursors then cursors[alias] else 0
  }

  function Start(cursors: map<Str, nat>, alias: Str, m: nat): nat
    requires m > 0
  {
    CursorOf(cursors, alias) % m
  }

  function Advance(cursors: map<Str, nat>, alias: Str, m: nat): map<Str, nat> {
    if m == 0 then cursors else cursors[alias := (CursorOf(cursors, alias) + 1) % m]
  }

  function Rotated(ps: seq<RouteProvider>, start: nat): seq<RouteProvider>
    requires start <= |ps|
  {
    ps[start..] + ps[..start]
  }

  /** The cursors after round-robin calls for any aliases; `sizes` is the provider count of each. */
  function Cursors(sizes: Str -> nat, calls: seq<Str>): map<Str, nat> {
    if calls == [] then map[]
    else
      var last := calls[|calls| - 1];
      Advance(Cursors(sizes, calls[..|calls| - 1]), last, sizes(last))
  }

  function CallsOf(calls: seq<Str>, alias: Str): nat {
    if calls == [] then 0 else CallsOf(calls[..|calls| - 1], alias) + if calls[|calls| - 1] == alias then 1 else 0
  }

  /** How many of the alias's calls had provider number `k` at the head. */
  function Heads(sizes: Str -> nat, calls: seq<Str>, alias: Str, k: nat): nat
    requires sizes(alias) > 0
  {
    if calls == [] then 0
    else
      var before := calls[..|calls| - 1];
      Heads(sizes, before, alias, k)
      + if calls[|calls| - 1] == alias && Start(Cursors(sizes, before), alias, sizes(alias)) == k then 1 else 0
  }

  function Share(n: nat, m: nat, k: nat): nat
    requires m > 0
  {
    n / m + if k < n % m then 1 else 0
  }

  lemma ShareStep(n: nat, m: nat, k: nat)
    requires m > 0 && k < m
    ensures Share(n + 1, m, k) == Share(n, m, k) + if n % m == k then 1 else 0
    ensures (n % m + 1) % m == (n + 1) % m
  {
    NextQuotient(n, m);
    if n % m + 1 < m {
      SmallMod(n % m + 1, m);
    }
  }

  lemma NextQuotient(n: nat, m: nat)
    requires m > 0
    ensures if n % m + 1 < m then (n + 1) / m == n / m && (n + 1) % m == n % m + 1
            else n % m + 1 == m && (n + 1) / m == n / m + 1 && (n + 1) % m == 0
  {
    var q, r := n / m, n % m;
    assert n == q * m + r;
    if r + 1 < m {
      QuotientIs(n + 1, m, q, r + 1);
    } else {
      assert (q + 1) * m == q * m + m;
      QuotientIs(n + 1, m, q + 1, 0);
    }
  }

  lemma QuotientIs(n: int, m: int, q: int, r: int)
    requires m > 0 && 0 <= r < m && n == q * m + r
    ensures n / m == q && n % m == r
  {
    var p, s := n / m, n % m;
    assert n == p * m + s;
    assert (p - q) * m == r - s;
    NoMultiple(p - q, m);
  }

  lemma NoMultiple(d: int, m: int)
    requires -m < d * m < m
    ensures d == 0
  {
    assert d > 0 ==> (d - 1) * m >= 0;
    assert d < 0 ==> (-1 - d) * m >= 0;
  }

  /** After any calls on any aliases, each provider of an alias was at the head of exactly its share of
      that alias's calls: the quotient, and one more for the first remainder-many providers. */
  lemma {:induction false} RoundRobinIsFair(sizes: Str -> nat, calls: seq<Str>, alias: Str, k: nat)
    requires k < sizes(alias)
    ensures Heads(sizes, calls, alias, k) == Share(CallsOf(calls, alias), sizes(alias), k)
    ensures CursorOf(Cursors(sizes, calls), alias) == CallsOf(calls, alias) % sizes(alias)
  {
    hide Share;
    if calls == [] {
      ShareOfNone(sizes(alias), k);
    } else {
      var n := |calls| - 1;
      RoundRobinIsFair(sizes, calls[..n], alias, k);
      if calls[n] == alias {
        ShareStep(CallsOf(calls[..n], alias), sizes(alias), k);
        SmallMod(CallsOf(calls[..n], alias) % sizes(alias), sizes(alias));
      }
    }
  }

  lemma ShareOfNone(m: nat, k: nat)
    requires m > 0
    ensures Share(0, m, k) == 0
  {
  }

  lemma SmallMod(r: nat, m: nat)
    requires r < m
    ensures r % m == r
  {
  }

  lemma WrapsAround(start: nat, k: nat, m: nat)
    requires start < m && k < m
    ensures (start + k) % m == if start + k < m then start + k else start + k - m
  {
    if start + k < m {
      QuotientIs(start + k, m, 0, start + k);
    } else {
      QuotientIs(start + k, m, 1, start + k - m);
    }
  }

  lemma RotatedAt(ps: seq<RouteProvider>, start: nat)
    requires start < |ps|
    ensures forall k, i :: 0 <= k < |ps| && 0 <= i < |ps| && i == (start + k) % |ps| ==> Rotated(ps, start)[k] == ps[i]
  {
    forall k, i | 0 <= k < |ps| && 0 <= i < |ps| && i == (start + k) % |ps| ensures Rotated(ps, start)[k] == ps[i] {
      WrapsAround(start, k, |ps|);
    }
  }

  // ---------------------------------------------------------------------------------------
  // Weighted order
  // ---------------------------------------------------------------------------------------

  /** Weights below one count as one. */
  function WeightOf(p: RouteProvider): int {
    if p.weight <= 0 then 1 else p.weight
  }

  function Total(ps: seq<RouteProvider>): nat {
    if ps == [] then 0 else WeightOf(ps[0]) + Total(ps[1..])
  }

  /** The element a draw falls on when the weights are laid end to end. */
  function Pick(ps: seq<RouteProvider>, draw: nat): (i: nat)
    requires draw < Total(ps)
    ensures i < |ps|
  {
    if draw < WeightOf(ps[0]) then 0 else 1 + Pick(ps[1..], draw - WeightOf(ps[0]))
  }

  function Interval(lo: nat, hi: nat): set<nat> {
    if hi <= lo then {} else Interval(lo, hi - 1) + {hi - 1}
  }

  lemma {:induction false} IntervalHolds(lo: nat, hi: nat)
    requires lo <= hi
    ensures forall x: nat :: x in Interval(lo, hi) <==> lo <= x < hi
    ensures |Interval(lo, hi)| == hi - lo
  {
    if lo < hi {
      IntervalHolds(lo, hi - 1);
    }
  }

  /** The draws that select element `i` start where the weights before it end. */
  lemma {:induction false} PickExact(ps: seq<RouteProvider>, draw: nat, i: nat)
    requires draw < Total(ps) && i < |ps|
    ensures Pick(ps, draw) == i <==> Total(ps[..i]) <= draw < Total(ps[..i]) + WeightOf(ps[i])
    decreases |ps|
  {
    var w := WeightOf(ps[0]);
    if i > 0 {
      assert ps[..i][1..] == ps[1..][..i - 1];
      assert Total(ps[..i]) == w + Total(ps[1..][..i - 1]);
      if draw >= w {
        PickExact(ps[1..], draw - w, i - 1);
      }
    }
  }

  lemma {:induction false} TotalSplits(ps: seq<RouteProvider>, i: nat)
    requires i < |ps|
    ensures Total(ps[..i]) + WeightOf(ps[i]) <= Total(ps)
  {
    if i > 0 {
      assert ps[..i][1..] == ps[1..][..i - 1];
      TotalSplits(ps[1..], i - 1);
    }
  }

  /** The draws below the total that select element `i`. */
  function DrawsOf(ps: seq<RouteProvider>, i: nat): set<nat> {
    set draw | draw in Interval(0, Total(ps)) && draw < Total(ps) && Pick(ps, draw) == i
  }

  /** Of the draws below the total, exactly `WeightOf(ps[i])` select element `i`. */
  lemma DrawsSelecting(ps: seq<RouteProvider>, i: nat)
    requires i < |ps|
    ensures |DrawsOf(ps, i)| == if ps[i].weight <= 0 then 1 else ps[i].weight
  {
    hide Total, Pick, Interval;
    var lo := Total(ps[..i]);
    var picks := DrawsOf(ps, i);
    TotalSplits(ps, i);
    IntervalHolds(0, Total(ps));
    IntervalHolds(lo, lo + WeightOf(ps[i]));
    forall x: nat ensures x in picks <==> x in Interval(lo, lo + WeightOf(ps[i])) {
      if x < Total(ps) {
        PickExact(ps, x, i);
      }
    }
    assert picks == Interval(lo, lo + WeightOf(ps[i]));
  }

  function Removed(ps: seq<RouteProvider>, i: nat): seq<RouteProvider>
    requires i < |ps|
  {
    ps[..i] + ps[i + 1..]
  }

  /** The random source: draw number `k` below a positive total. */
  ghost predicate Draws(randn: (nat, nat) -> nat) {
    forall k: nat, total: nat :: total > 0 ==> randn(k, total) < total
  }

  /** Selection without replacement. */
  function DrawnOrder(ps: seq<RouteProvider>, randn: (nat, nat) -> nat, k: nat): seq<RouteProvider>
    requires Draws(randn)
    decreases |ps|
  {
    if ps == [] then []
    else
      var i := Pick(ps, randn(k, Total(ps)));
      [ps[i]] + DrawnOrder(Removed(ps, i), randn, k + 1)
  }

  lemma {:induction false} DrawnIsPermutation(ps: seq<RouteProvider>, randn: (nat, nat) -> nat, k: nat)
    requires Draws(randn)
    ensures multiset(DrawnOrder(ps, randn, k)) == multiset(ps)
    decreases |ps|
  {
    if ps != [] {
      var i := Pick(ps, randn(k, Total(ps)));
      DrawnIsPermutation(Removed(ps, i), randn, k + 1);
      RemovedOne(ps, i);
    }
  }

  lemma RemovedOne(ps: seq<RouteProvider>, i: nat)
    requires i < |ps|
    ensures multiset(ps) == multiset{ps[i]} + multiset(Removed(ps, i))
  {
    assert ps == ps[..i] + ([ps[i]] + ps[i + 1..]);
  }

  /** `weightedOrder`. */
  method WeightedOrder(ps: seq<RouteProvider>, randn: (nat, nat) -> nat) returns (out: seq<RouteProvider>)
    requires Draws(randn)
    ensures out == DrawnOrder(ps, randn, 0) && multiset(out) == multiset(ps)
  {
    hide Total, Pick;
    var remaining, k := ps, 0;
    out := [];
    while |remaining| > 0
      invariant out + DrawnOrder(remaining, randn, k) == DrawnOrder(ps, randn, 0)
      decreases |remaining|
    {
      var total := SumWeights(remaining);
      TotalPositive(remaining);
      var idx := FindPick(remaining, randn(k, total));
      assert out + ([remaining[idx]] + DrawnOrder(Removed(remaining, idx), randn, k + 1))
          == out + [remaining[idx]] + DrawnOrder(Removed(remaining, idx), randn, k + 1);
      out := out + [remaining[idx]];
      remaining := remaining[..idx] + remaining[idx + 1..];
      k := k + 1;
    }
    assert out + [] == out;
    DrawnIsPermutation(ps, randn, 0);
  }

  lemma TotalPositive(ps: seq<RouteProvider>)
    requires ps != []
    ensures Total(ps) > 0
  {
  }

  method SumWeights(ps: seq<RouteProvider>) returns (total: nat)
    ensures total == Total(ps)
  {
    total := 0;
    for i := 0 to |ps|
      invariant total + Total(ps[i..]) == Total(ps)
    {
      assert ps[i..][1..] == ps[i + 1..];
      total := total + WeightOf(ps[i]);
    }
  }

  /** The accumulating loop. */
  method FindPick(ps: seq<RouteProvider>, pick: nat) returns (idx: nat)
    requires pick < Total(ps)
    ensures idx == Pick(ps, pick)
  {
    idx := 0;
    var cum := 0;
    for i := 0 to |ps|
      invariant cum <= pick && pick - cum < Total(ps[i..])
      invariant Pick(ps, pick) == i + Pick(ps[i..], pick - cum)
    {
      assert ps[i..][1..] == ps[i + 1..];
      cum := cum + WeightOf(ps[i]);
      if pick < cum {
        return i;
      }
    }
    assert false;
  }

  // ---------------------------------------------------------------------------------------
  // Health filter and candidates
  // ---------------------------------------------------------------------------------------

  /** `r` is `names` at the given strictly increasing positions. */
  predicate Subsequence(r: seq<Str>, names: seq<Str>, at: seq<nat>) {
    && |at| == |r|
    && (forall i :: 0 <= i < |at| ==> at[i] < |names| && r[i] == names[at[i]])
    && (forall i, j :: 0 <= i < j < |at| ==> at[i] < at[j])
  }

  lemma SubsequenceMore(r: seq<Str>, names: seq<Str>, at: seq<nat>, i: nat)
    requires Subsequence(r, names, at) && i < |names| && forall k :: k in at ==> k < i
    ensures Subsequence(r + [names[i]], names, at + [i])
  {
    assert forall k :: 0 <= k < |at| ==> at[k] in at;
  }

  /** The health of candidate `i` when its turn to be checked comes. */
  predicate HealthyAt(d: Dispatcher, cfg: Config, states: States, names: seq<Str>, protocol: Str, clock: nat -> int,
                      i: nat)
    requires i < |names|
  {
    var key := KeyFor(d, names[i], protocol);
    key in states && states[key].openedAt.Some? ==> clock(i) - states[key].openedAt.value >= cfg.cooldown
  }

  /** What health filtering returns: the healthy candidates in order, or all of them when none is. */
  ghost predicate Filtered(r: seq<Str>, d: Dispatcher, cfg: Config, states: States, names: seq<Str>, protocol: Str,
                           clock: nat -> int) {
    if forall i :: 0 <= i < |names| ==> !HealthyAt(d, cfg, states, names, protocol, clock, i)
    then r == names
    else exists at :: Subsequence(r, names, at)
                      && forall i :: 0 <= i < |names| ==>
                          (i in at <==> HealthyAt(d, cfg, states, names, protocol, clock, i))
  }

  method FilterHealthy(d: Dispatcher, b: CircuitBreaker, names: seq<Str>, protocol: Str, clock: nat -> int)
    returns (r: seq<Str>)
    ensures Filtered(r, d, b.cfg, b.states, names, protocol, clock)
    ensures names != [] ==> r != []
    ensures forall n :: n in r ==> n in names
  {
    hide KeyFor, IsHealthy;
    r := [];
    ghost var at: seq<nat> := [];
    for i := 0 to |names|
      invariant Subsequence(r, names, at) && forall k :: k in at ==> k < i
      invariant forall k :: 0 <= k < i ==> (k in at <==> HealthyAt(d, b.cfg, b.states, names, protocol, clock, k))
    {
      var ok := b.Healthy(KeyFor(d, names[i], protocol), clock(i));
      if ok {
        SubsequenceMore(r, names, at, i);
        r := r + [names[i]];
        at := at + [i];
      }
    }
    if |r| == 0 {
      return names;
    }
    assert at[0] in at;
  }

  /** The order of a route's providers under its strategy. */
  ghost predicate Ordered(order: seq<RouteProvider>, route: Route, cursors: map<Str, nat>, alias: Str,
                          score: Str -> nat, randn: (nat, nat) -> nat)
    requires Draws(randn)
  {
    && multiset(order) == multiset(route.providers)
    && (route.strategy == Priority ==> order == route.providers)
    && (route.strategy == SessionAffinity ==> order == StableSort(score, route.providers))
    && (route.strategy == Weighted ==> order == DrawnOrder(route.providers, randn, 0))
    && (route.strategy == RoundRobin && route.providers != [] ==>
          order == Rotated(route.providers, Start(cursors, alias, |route.providers|)))
  }

  /** The router's mutable part: one cursor per alias. */
  class Router {
    var cursors: map<Str, nat>

    constructor ()
      ensures cursors == map[]
    {
      cursors := map[];
    }

    method Rotate(alias: Str, ps: seq<RouteProvider>) returns (out: seq<RouteProvider>)
      modifies this
      ensures cursors == Advance(old(cursors), alias, |ps|)
      ensures ps != [] ==>
                out == Rotated(ps, Start(old(cursors), alias, |ps|)) && out[0] == ps[Start(old(cursors), alias, |ps|)]
      ensures multiset(out) == multiset(ps)
      ensures forall k, i :: 0 <= k < |out| && 0 <= i < |ps| && i == (Start(old(cursors), alias, |ps|) + k) % |ps| ==>
                out[k] == ps[i]
    {
      if |ps| == 0 {
        return ps;
      }
      var cursor := CursorOf(cursors, alias);
      var start := cursor % |ps|;
      cursors := cursors[alias := (cursor + 1) % |ps|];
      out := ps[start..] + ps[..start];
      RotatedAt(ps, start);
      assert ps == ps[..start] + ps[start..];
    }

    /** `Candidates`: absent without a route; else the health-filtered names of a permutation of the
        route's providers, so every candidate is on the route and none is lost but to its health. */
    method Candidates(d: Dispatcher, b: CircuitBreaker, alias: Str, score: Str -> nat, protocol: Str,
                      randn: (nat, nat) -> nat, clock: nat -> int)
      returns (r: Option<seq<Str>>, ghost order: seq<RouteProvider>)
      requires Draws(randn)
      modifies this
      ensures r.Some? <==> alias in d.routes || [42] in d.routes
      ensures alias in d.routes ==> RouteFor(d, alias) == d.routes[alias]
      ensures var route := RouteFor(d, alias);
              r.Some? ==>
                && Ordered(order, route, old(cursors), alias, score, randn)
                && Filtered(r.value, d, b.cfg, b.states, Names(order), protocol, clock)
                && (route.providers != [] ==> r.value != [])
                && forall i :: 0 <= i < |r.value| ==> OnRoute(route, r.value[i])
      ensures cursors == if r.Some? && RouteFor(d, alias).strategy == RoundRobin
                         then Advance(old(cursors), alias, |RouteFor(d, alias).providers|) else old(cursors)
    {
      hide Filtered, StableSort, Sorted, DrawnOrder, Draws;
      order := [];
      if alias !in d.routes && WILDCARD !in d.routes {
        return None, [];
      }
      var route := if alias in d.routes then d.routes[alias] else d.routes[WILDCARD];
      var ordered := route.providers;
      match route.strategy {
        case RoundRobin => ordered := Rotate(alias, route.providers);
        case Weighted => ordered := WeightedOrder(route.providers, randn);
        case SessionAffinity => ordered := HrwOrder(score, route.providers);
        case Priority =>
      }
      order := ordered;
      var names := Names(ordered);
      assert |multiset(ordered)| == |ordered| && |multiset(route.providers)| == |route.providers|;
      NamesOnRoute(route, ordered);
      var kept := FilterHealthy(d, b, names, protocol, clock);
      r := Some(kept);
    }
  }

  function Names(ps: seq<RouteProvider>): seq<Str> {
    seq(|ps|, i requires 0 <= i < |ps| => ps[i].name)
  }

  lemma NamesOnRoute(route: Route, order: seq<RouteProvider>)
    requires multiset(order) == multiset(route.providers)
    ensures forall n :: n in Names(order) ==> OnRoute(route, n)
  {
    forall i | 0 <= i < |order| ensures OnRoute(route, order[i].name) {
      assert order[i] in multiset(route.providers);
    }
  }
}
