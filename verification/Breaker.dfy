/**
 The per-endpoint circuit breaker (`internal/proxy/breaker.go`), its state explained by the history of
 marks, and its state view.
 */
module Breaker {
  import opened Text
  import opened Dispatch

  /** `openedAt` is absent while the breaker is closed (Go's zero time). */
  datatype State = State(failures: nat, openedAt: Option<int>)

  const CLOSED := State(0, None)

  datatype Config = Config(threshold: int, cooldown: int)

  const DEFAULT_THRESHOLD := 5
  const DEFAULT_COOLDOWN := 30_000_000_000

  type States = map<EndpointKey, State>

  /** One mark. A failure reads the clock once to compare and once to stamp. */
  datatype Mark = Failure(key: EndpointKey, checked: int, stamped: int) | Success(key: EndpointKey)

  function StateOf(states: States, key: EndpointKey): State {
    if key in states then states[key] else CLOSED
  }

  function AfterMark(cfg: Config, s: State, m: Mark): State {
    match m
    case Success(_) => CLOSED
    case Failure(_, checked, stamped) =>
      if s.openedAt.Some? then
        if checked - s.openedAt.value >= cfg.cooldown then s.(openedAt := Some(stamped)) else s
      else if s.failures + 1 >= cfg.threshold then State(s.failures + 1, Some(stamped))
      else State(s.failures + 1, None)
  }

  function Apply(cfg: Config, states: States, m: Mark): States {
    states[m.key := AfterMark(cfg, StateOf(states, m.key), m)]
  }

  function Replay(cfg: Config, marks: seq<Mark>): States {
    if marks == [] then map[] else Apply(cfg, Replay(cfg, marks[..|marks| - 1]), marks[|marks| - 1])
  }

  predicate IsHealthy(cfg: Config, s: State, now: int) {
    s.openedAt.Some? ==> now - s.openedAt.value >= cfg.cooldown
  }

  datatype View = Closed | Open | HalfOpen

  function ViewOf(cfg: Config, s: State, now: int): View {
    if s.openedAt.None? then Closed
    else if now - s.openedAt.value < cfg.cooldown then Open
    else HalfOpen
  }

  /** "<provider>/<endpoint>" */
  function Render(k: EndpointKey): Str {
    k.provider + [SLASH] + k.endpoint
  }

  const SLASH: byte := 47

  class CircuitBreaker {
    const cfg: Config
    var states: States

    constructor (cfg: Config)
      ensures this.cfg.threshold == (if cfg.threshold <= 0 then 5 else cfg.threshold)
      ensures this.cfg.cooldown == (if cfg.cooldown <= 0 then 30_000_000_000 else cfg.cooldown)
      ensures states == Replay(this.cfg, [])
    {
      this.cfg := Config(if cfg.threshold <= 0 then DEFAULT_THRESHOLD else cfg.threshold,
                         if cfg.cooldown <= 0 then DEFAULT_COOLDOWN else cfg.cooldown);
      states := map[];
    }

    method Healthy(key: EndpointKey, now: int) returns (ok: bool)
      ensures ok == IsHealthy(cfg, StateOf(states, key), now)
      ensures ok <==> key !in states || states[key].openedAt.None? || now - states[key].openedAt.value >= cfg.cooldown
    {
      if key !in states || states[key].openedAt.None? {
        return true;
      }
      ok := now - states[key].openedAt.value >= cfg.cooldown;
    }

    method MarkFailure(key: EndpointKey, checked: int, stamped: int)
      modifies this
      ensures states == Apply(cfg, old(states), Failure(key, checked, stamped))
    {
      var s := StateFor(key);
      if s.openedAt.Some? {
        if checked - s.openedAt.value >= cfg.cooldown {
          s := s.(openedAt := Some(stamped));
        }
        states := states[key := s];
        return;
      }
      s := s.(failures := s.failures + 1);
      if s.failures >= cfg.threshold {
        s := s.(openedAt := Some(stamped));
      }
      states := states[key := s];
    }

    method MarkSuccess(key: EndpointKey)
      modifies this
      ensures states == Apply(cfg, old(states), Mark.Success(key))
    {
      var _ := StateFor(key);
      states := states[key := CLOSED];
    }

    /** The endpoint's state, entered as closed when unknown. */
    method StateFor(key: EndpointKey) returns (s: State)
      modifies this
      ensures s == StateOf(old(states), key) && states == old(states)[key := s]
    {
      if key !in states {
        states := states[key := CLOSED];
      }
      s := states[key];
    }

    /** `States`: the loop visits the keys in no particular order. */
    method Snapshot(now: int) returns (out: map<Str, View>)
      ensures exists order :: Enumerates(order, states.Keys) && out == Views(cfg, states, order, now)
      ensures DistinctNames(states.Keys) ==> Agrees(cfg, states, out, now)
    {
      out := map[];
      ghost var order := [];
      var rest := states.Keys;
      assert Enumerates([], {}) && Views(cfg, states, [], now) == map[];
      hide Enumerates, Views, Render, ViewOf, Agrees, DistinctNames;
      while rest != {}
        invariant rest <= states.Keys
        invariant Enumerates(order, states.Keys - rest)
        invariant out == Views(cfg, states, order, now)
        decreases rest
      {
        var key :| key in rest;
        EnumeratesMore(order, states.Keys - rest, key);
        assert states.Keys - rest + {key} == states.Keys - (rest - {key});
        rest := rest - {key};
        ViewsMore(cfg, states, order, key, now);
        out := out[Render(key) := ViewOf(cfg, states[key], now)];
        order := order + [key];
      }
      assert states.Keys - rest == states.Keys;
      if DistinctNames(states.Keys) {
        DistinctViewAgrees(cfg, states, order, now);
      }
    }
  }

  // ---------------------------------------------------------------------------------------
  // History
  // ---------------------------------------------------------------------------------------

  /** Failures of the endpoint since its last success. */
  function Since(marks: seq<Mark>, key: EndpointKey): nat {
    if marks == [] then 0
    else
      var last := marks[|marks| - 1];
      if last.key != key then Since(marks[..|marks| - 1], key)
      else if last.Success? then 0
      else Since(marks[..|marks| - 1], key) + 1
  }

  /** A breaker is open or half-open exactly when at least the threshold of failures followed its last
      success; below it, it counts exactly those failures. */
  lemma {:induction false} OpenIffFailures(cfg: Config, marks: seq<Mark>, key: EndpointKey)
    requires cfg.threshold > 0
    ensures var s, n := StateOf(Replay(cfg, marks), key), Since(marks, key);
            && (s.openedAt.Some? <==> n >= cfg.threshold)
            && s.failures == if n < cfg.threshold then n else cfg.threshold
  {
    if marks != [] {
      OpenIffFailures(cfg, marks[..|marks| - 1], key);
    }
  }

  function OnlyFor(marks: seq<Mark>, key: EndpointKey): seq<Mark> {
    if marks == [] then []
    else
      var last := marks[|marks| - 1];
      OnlyFor(marks[..|marks| - 1], key) + if last.key == key then [last] else []
  }

  /** Marks of other endpoints never matter. */
  lemma {:induction false} OthersNeverMatter(cfg: Config, marks: seq<Mark>, key: EndpointKey)
    ensures StateOf(Replay(cfg, marks), key) == StateOf(Replay(cfg, OnlyFor(marks, key)), key)
  {
    hide AfterMark;
    if marks != [] {
      var n := |marks| - 1;
      OthersNeverMatter(cfg, marks[..n], key);
      var before := OnlyFor(marks[..n], key);
      if marks[n].key == key {
        assert (before + [marks[n]])[..|before|] == before;
      } else {
        assert OnlyFor(marks, key) == before;
      }
    }
  }

  /** Within the cooldown of an opening at `opening`, every mark of this endpoint is a failure. */
  predicate FailsWithin(cfg: Config, marks: seq<Mark>, key: EndpointKey, opening: int) {
    forall i :: 0 <= i < |marks| && marks[i].key == key ==>
        marks[i].Failure? && marks[i].checked - opening < cfg.cooldown
  }

  /** However many failures arrive inside the cooldown, the breaker neither stays open longer nor
      changes at all. */
  lemma {:induction false} CooldownNotExtended(cfg: Config, marks: seq<Mark>, more: seq<Mark>, key: EndpointKey,
                                               opening: int)
    requires StateOf(Replay(cfg, marks), key).openedAt == Some(opening) && FailsWithin(cfg, more, key, opening)
    ensures StateOf(Replay(cfg, marks + more), key) == StateOf(Replay(cfg, marks), key)
  {
    if more == [] {
      assert marks + more == marks;
    } else {
      var n := |more| - 1;
      assert FailsWithin(cfg, more[..n], key, opening);
      CooldownNotExtended(cfg, marks, more[..n], key, opening);
      assert (marks + more)[..|marks| + n] == marks + more[..n];
    }
  }

  /** Mark `i` opened the breaker at the time it now carries: it reached the threshold or failed a
      half-open trial, and since then there were only failures inside the cooldown. */
  ghost predicate OpenedBy(cfg: Config, marks: seq<Mark>, key: EndpointKey, i: nat, opening: int) {
    && i < |marks| && marks[i].Failure? && marks[i].key == key && marks[i].stamped == opening
    && Opens(cfg, StateOf(Replay(cfg, marks[..i]), key), marks[i])
    && forall j :: i < j < |marks| && marks[j].key == key ==>
        marks[j].Failure? && marks[j].checked - opening < cfg.cooldown
  }

  predicate Opens(cfg: Config, s: State, m: Mark)
    requires m.Failure?
  {
    if s.openedAt.Some? then m.checked - s.openedAt.value >= cfg.cooldown
    else s.failures + 1 >= cfg.threshold
  }

  lemma {:induction false} OpeningHasCause(cfg: Config, marks: seq<Mark>, key: EndpointKey) returns (i: nat)
    requires StateOf(Replay(cfg, marks), key).openedAt.Some?
    ensures OpenedBy(cfg, marks, key, i, StateOf(Replay(cfg, marks), key).openedAt.value)
  {
    var n := |marks| - 1;
    var last, before := marks[n], StateOf(Replay(cfg, marks[..n]), key);
    if last.key == key && last.Failure? && Opens(cfg, before, last) {
      i := n;
    } else {
      i := OpeningHasCause(cfg, marks[..n], key);
      assert marks[..n][..i] == marks[..i];
    }
  }

  // ---------------------------------------------------------------------------------------
  // The state view
  // ---------------------------------------------------------------------------------------

  ghost predicate Enumerates(order: seq<EndpointKey>, keys: set<EndpointKey>) {
    && (forall k :: k in keys <==> k in order)
    && forall i, j :: 0 <= i < j < |order| ==> order[i] != order[j]
  }

  function Views(cfg: Config, states: States, order: seq<EndpointKey>, now: int): map<Str, View> {
    if order == [] then map[]
    else
      var last := order[|order| - 1];
      Views(cfg, states, order[..|order| - 1], now)[Render(last) := ViewOf(cfg, StateOf(states, last), now)]
  }

  lemma EnumeratesMore(order: seq<EndpointKey>, keys: set<EndpointKey>, key: EndpointKey)
    requires Enumerates(order, keys) && key !in keys
    ensures Enumerates(order + [key], keys + {key})
  {
  }

  lemma ViewsMore(cfg: Config, states: States, order: seq<EndpointKey>, key: EndpointKey, now: int)
    ensures Views(cfg, states, order + [key], now)
            == Views(cfg, states, order, now)[Render(key) := ViewOf(cfg, StateOf(states, key), now)]
  {
    assert (order + [key])[..|order|] == order;
  }

  /** Each known endpoint is shown as what it is: open exactly when it is unhealthy, closed when it was not
      opened, half-open when its cooldown has passed. */
  ghost predicate Agrees(cfg: Config, states: States, view: map<Str, View>, now: int) {
    forall k :: k in states ==>
      && Render(k) in view
      && (view[Render(k)] == Open <==> !IsHealthy(cfg, states[k], now))
      && (view[Render(k)] == Closed <==> states[k].openedAt.None?)
      && (view[Render(k)] == HalfOpen <==> states[k].openedAt.Some? && now - states[k].openedAt.value >= cfg.cooldown)
  }

  ghost predicate DistinctNames(keys: set<EndpointKey>) {
    forall a, b :: a in keys && b in keys && Render(a) == Render(b) ==> a == b
  }

  lemma {:induction false} ViewsHold(cfg: Config, states: States, order: seq<EndpointKey>, now: int, k: EndpointKey)
    requires DistinctNames(states.Keys) && k in states && k in order
    requires forall x :: x in order ==> x in states
    ensures var v := Views(cfg, states, order, now); Render(k) in v && v[Render(k)] == ViewOf(cfg, states[k], now)
  {
    hide Render;
    var n := |order| - 1;
    if order[n] != k {
      assert order == order[..n] + [order[n]];
      assert order[n] in order;
      ViewsHold(cfg, states, order[..n], now, k);
    }
  }

  lemma DistinctViewAgrees(cfg: Config, states: States, order: seq<EndpointKey>, now: int)
    requires DistinctNames(states.Keys) && Enumerates(order, states.Keys)
    ensures Agrees(cfg, states, Views(cfg, states, order, now), now)
  {
    hide Render;
    forall k | k in states
      ensures var v := Views(cfg, states, order, now); Render(k) in v && v[Render(k)] == ViewOf(cfg, states[k], now)
    {
      ViewsHold(cfg, states, order, now, k);
    }
  }

  /** The view tells every endpoint's health, after any history of marks on the endpoints and whatever
      order the map is walked in, exactly when no two endpoints render to the same name. */
  lemma ViewAgreesExact(cfg: Config, keys: set<EndpointKey>, now: int)
    requires cfg.threshold > 0 && cfg.cooldown > 0
    ensures DistinctNames(keys)
            <==> forall marks, order :: Replay(cfg, marks).Keys == keys && Enumerates(order, keys) ==>
                   Agrees(cfg, Replay(cfg, marks), Views(cfg, Replay(cfg, marks), order, now), now)
  {
    hide Render, Agrees, Views, Replay, Enumerates;
    if DistinctNames(keys) {
      forall marks, order | Replay(cfg, marks).Keys == keys && Enumerates(order, keys)
        ensures Agrees(cfg, Replay(cfg, marks), Views(cfg, Replay(cfg, marks), order, now), now)
      {
        DistinctViewAgrees(cfg, Replay(cfg, marks), order, now);
      }
    } else {
      var a, b :| a in keys && b in keys && Render(a) == Render(b) && a != b;
      var marks, order := ClashMisreports(cfg, keys, now, a, b);
    }
  }

  function Successes(order: seq<EndpointKey>): seq<Mark> {
    seq(|order|, i requires 0 <= i < |order| => Mark.Success(order[i]))
  }

  lemma {:induction false} ReplaySuccesses(cfg: Config, order: seq<EndpointKey>)
    ensures Replay(cfg, Successes(order)) == map k | k in order :: CLOSED
  {
    if order != [] {
      var n := |order| - 1;
      assert order == order[..n] + [order[n]];
      assert Successes(order)[..n] == Successes(order[..n]);
      ReplaySuccesses(cfg, order[..n]);
    }
  }

  function Failures(key: EndpointKey, n: nat, now: int): seq<Mark> {
    seq(n, i requires 0 <= i < n => Mark.Failure(key, now, now))
  }

  lemma ReplayMore(cfg: Config, marks: seq<Mark>, m: Mark)
    ensures Replay(cfg, marks + [m]) == Apply(cfg, Replay(cfg, marks), m)
  {
    assert (marks + [m])[..|marks|] == marks;
  }

  /** Failures of one endpoint, all stamped `now`, after a history that left it closed. */
  lemma {:induction false} ReplayFailures(cfg: Config, marks: seq<Mark>, key: EndpointKey, n: nat, now: int)
    requires cfg.cooldown > 0 && StateOf(Replay(cfg, marks), key) == CLOSED && key in Replay(cfg, marks)
    requires n <= cfg.threshold
    ensures Replay(cfg, marks + Failures(key, n, now))
            == Replay(cfg, marks)[key := State(n, if n > 0 && n == cfg.threshold then Some(now) else None)]
  {
    hide Replay;
    if n == 0 {
      assert marks + Failures(key, n, now) == marks;
    } else {
      ReplayFailures(cfg, marks, key, n - 1, now);
      ReplayMore(cfg, marks + Failures(key, n - 1, now), Mark.Failure(key, now, now));
      assert marks + Failures(key, n, now) == marks + Failures(key, n - 1, now) + [Mark.Failure(key, now, now)];
    }
  }

  /** With a shared name, a success of every endpoint and then a threshold of failures of one of them make
      the view show the other, healthy one as open. */
  lemma ClashMisreports(cfg: Config, keys: set<EndpointKey>, now: int, a: EndpointKey, b: EndpointKey)
    returns (marks: seq<Mark>, order: seq<EndpointKey>)
    requires cfg.threshold > 0 && cfg.cooldown > 0
    requires a in keys && b in keys && a != b && Render(a) == Render(b)
    ensures var states := Replay(cfg, marks);
            && states.Keys == keys && Enumerates(order, keys) && a in states && IsHealthy(cfg, states[a], now)
            && Render(a) in Views(cfg, states, order, now) && Views(cfg, states, order, now)[Render(a)] == Open
            && !Agrees(cfg, states, Views(cfg, states, order, now), now)
  {
    hide Render;
    var others := Listing(keys - {b});
    order := others + [b];
    assert order[..|others|] == others;
    assert Enumerates(order, keys);
    marks := Successes(order) + Failures(b, cfg.threshold, now);
    ReplaySuccesses(cfg, order);
    ReplayFailures(cfg, Successes(order), b, cfg.threshold, now);
    var states := Replay(cfg, marks);
    assert states.Keys == keys;
    assert states[a] == CLOSED && states[b].openedAt == Some(now);
    assert Views(cfg, states, order, now)[Render(b)] == Open;
  }

  lemma Listing(keys: set<EndpointKey>) returns (order: seq<EndpointKey>)
    ensures Enumerates(order, keys)
  {
    order := [];
    if keys != {} {
      var k :| k in keys;
      var rest := Listing(keys - {k});
      order := rest + [k];
    }
  }

  /** Provider "a" with endpoint "b/c" and provider "a/b" with endpoint "c" share a name, so with the
      default configuration some history makes the view show one of them as open while it is healthy. */
  lemma SlashesClash(now: int) returns (marks: seq<Mark>, order: seq<EndpointKey>)
    ensures var x, y := EndpointKey([97], [98, 47, 99]), EndpointKey([97, 47, 98], [99]);
            var cfg := Config(DEFAULT_THRESHOLD, DEFAULT_COOLDOWN);
            var states := Replay(cfg, marks);
            && states.Keys == {x, y} && Enumerates(order, {x, y}) && IsHealthy(cfg, states[x], now)
            && Render(x) in Views(cfg, states, order, now) && Views(cfg, states, order, now)[Render(x)] == Open
  {
    var x, y := EndpointKey([97], [98, 47, 99]), EndpointKey([97, 47, 98], [99]);
    assert Render(x) == [97, 47, 98, 47, 99] == Render(y);
    assert x.provider != y.provider;
    hide Render, Views, Replay, Enumerates;
    marks, order := ClashMisreports(Config(DEFAULT_THRESHOLD, DEFAULT_COOLDOWN), {x, y}, now, x, y);
  }

  /** Provider names without a slash never clash. */
  lemma SlashFreeProvidersAreDistinct(keys: set<EndpointKey>)
    requires forall k :: k in keys ==> SLASH !in k.provider
    ensures DistinctNames(keys)
  {
    forall a, b | a in keys && b in keys && Render(a) == Render(b) ensures a == b {
      FirstSlash(a, b);
    }
  }

  lemma FirstSlash(a: EndpointKey, b: EndpointKey)
    requires Render(a) == Render(b) && SLASH !in a.provider && SLASH !in b.provider
    ensures a == b
  {
    var m, n := |a.provider|, |b.provider|;
    assert Render(a)[m] == SLASH && Render(b)[n] == SLASH;
    assert m == n;
    assert Render(a)[..m] == a.provider && Render(b)[..n] == b.provider;
    assert Render(a)[m + 1..] == a.endpoint && Render(b)[n + 1..] == b.endpoint;
  }
}
