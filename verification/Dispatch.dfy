/**
 Model resolution (`internal/config/model.go`), endpoint selection (`internal/proxy/preparer.go`),
 the failover loop and the price snapshot (`internal/proxy/dispatcher.go`).
 */
module Dispatch {
  import opened Text
  import opened Cost

  datatype Upstream = Upstream(provider: Str, upstreamModel: Str, defaultMaxTokens: int, pricing: Pricing)
  datatype Model = Model(alias: Str, upstreams: seq<Upstream>)
  datatype Dynamic = Dynamic(version: Str, models: seq<Model>)

  datatype Endpoint = Endpoint(id: Str, adapter: Str)
  datatype EndpointKey = EndpointKey(provider: Str, endpoint: Str)

  datatype RouteProvider = RouteProvider(name: Str, weight: int)
  datatype Strategy = Priority | RoundRobin | Weighted | SessionAffinity

  datatype Route = Route(strategy: Strategy, providers: seq<RouteProvider>)

  /** A dispatcher over one configuration; every provider's endpoints are in order, the first primary. */
  datatype Dispatcher = Dispatcher(
    routes: map<Str, Route>, endpoints: map<Str, seq<Endpoint>>, forwarders: set<EndpointKey>, dyn: Dynamic)

  // ---------------------------------------------------------------------------------------
  // Resolution
  // ---------------------------------------------------------------------------------------

  function FindUpstream(us: seq<Upstream>, provider: Str): Option<Upstream> {
    if us == [] then None
    else if us[0].provider == provider then Some(us[0])
    else FindUpstream(us[1..], provider)
  }

  /** `ResolveModel`: the first upstream of the provider among the models of that alias. */
  function ResolveModel(models: seq<Model>, alias: Str, provider: Str): Option<Upstream> {
    if models == [] then None
    else if models[0].alias == alias && FindUpstream(models[0].upstreams, provider).Some? then
      FindUpstream(models[0].upstreams, provider)
    else ResolveModel(models[1..], alias, provider)
  }

  const DEFAULT_ENDPOINT: Str := [100, 101, 102, 97, 117, 108, 116]
  const CLAUDE: Str := [99, 108, 97, 117, 100, 101]
  const ANTHROPIC: Str := [97, 110, 116, 104, 114, 111, 112, 105, 99]

  function EndpointId(e: Endpoint): Str {
    if e.id != [] then e.id else if e.adapter == CLAUDE then ANTHROPIC else e.adapter
  }

  function AdapterName(protocol: Str): Str {
    if protocol == ANTHROPIC then CLAUDE else protocol
  }

  function FindAdapter(eps: seq<Endpoint>, adapter: Str): Option<Endpoint> {
    if eps == [] then None
    else if eps[0].adapter == adapter then Some(eps[0])
    else FindAdapter(eps[1..], adapter)
  }

  /** `pickEndpoint`: the endpoint that speaks the client's protocol, else the primary one. */
  function PickEndpoint(d: Dispatcher, provider: Str, protocol: Str): Option<Endpoint> {
    if provider !in d.endpoints || d.endpoints[provider] == [] then None
    else
      var eps := d.endpoints[provider];
      if protocol != [] && FindAdapter(eps, AdapterName(protocol)).Some? then FindAdapter(eps, AdapterName(protocol))
      else Some(eps[0])
  }

  function KeyFor(d: Dispatcher, provider: Str, protocol: Str): EndpointKey {
    var e := PickEndpoint(d, provider, protocol);
    EndpointKey(provider, if e.Some? then EndpointId(e.value) else DEFAULT_ENDPOINT)
  }

  const WILDCARD: Str := [42]

  function RouteFor(d: Dispatcher, alias: Str): Route {
    if alias in d.routes then d.routes[alias]
    else if WILDCARD in d.routes then d.routes[WILDCARD]
    else Route(Priority, [])
  }

  predicate OnRoute(r: Route, provider: Str) {
    exists i :: 0 <= i < |r.providers| && r.providers[i].name == provider
  }

  // ---------------------------------------------------------------------------------------
  // The price snapshot
  // ---------------------------------------------------------------------------------------

  /** A provider the failover loop could reach for this alias and protocol. */
  predicate Reachable(d: Dispatcher, alias: Str, protocol: Str, provider: Str) {
    OnRoute(RouteFor(d, alias), provider) && KeyFor(d, provider, protocol) in d.forwarders
  }

  function KeepReachable(d: Dispatcher, alias: Str, protocol: Str, us: seq<Upstream>): seq<Upstream> {
    if us == [] then []
    else
      var n := |us| - 1;
      KeepReachable(d, alias, protocol, us[..n]) + if Reachable(d, alias, protocol, us[n].provider) then [us[n]] else []
  }

  function SnapshotModels(d: Dispatcher, alias: Str, protocol: Str, models: seq<Model>): seq<Model> {
    if models == [] then []
    else
      var n := |models| - 1;
      SnapshotModels(d, alias, protocol, models[..n])
      + if models[n].alias == alias then [Model(alias, KeepReachable(d, alias, protocol, models[n].upstreams))] else []
  }

  function Snapshot(d: Dispatcher, alias: Str, protocol: Str): Dynamic {
    Dynamic(d.dyn.version, SnapshotModels(d, alias, protocol, d.dyn.models))
  }

  /** The inner loops of `accountingSnapshot` for one model. */
  method FilterUpstreams(d: Dispatcher, alias: Str, protocol: Str, us: seq<Upstream>) returns (kept: seq<Upstream>)
    ensures kept == KeepReachable(d, alias, protocol, us)
  {
    hide KeyFor, RouteFor;
    kept := [];
    var route := RouteFor(d, alias);
    for i := 0 to |us|
      invariant kept == KeepReachable(d, alias, protocol, us[..i])
    {
      assert us[..i + 1][..i] == us[..i];
      var j := 0;
      var keep := false;
      while j < |route.providers|
        invariant 0 <= j <= |route.providers|
        invariant !keep ==> forall k :: 0 <= k < j ==> route.providers[k].name != us[i].provider
        invariant keep ==> Reachable(d, alias, protocol, us[i].provider)
      {
        if route.providers[j].name == us[i].provider {
          keep := KeyFor(d, us[i].provider, protocol) in d.forwarders;
          break;
        }
        j := j + 1;
      }
      if keep {
        kept := kept + [us[i]];
      }
      assert keep == Reachable(d, alias, protocol, us[i].provider);
    }
    assert us[..|us|] == us;
  }

  method AccountingSnapshot(d: Dispatcher, alias: Str, protocol: Str) returns (s: Dynamic)
    ensures s == Snapshot(d, alias, protocol)
  {
    hide KeepReachable;
    var models := [];
    var all := d.dyn.models;
    for i := 0 to |all|
      invariant models == SnapshotModels(d, alias, protocol, all[..i])
    {
      assert all[..i + 1][..i] == all[..i];
      if all[i].alias != alias {
        continue;
      }
      var filtered := FilterUpstreams(d, alias, protocol, all[i].upstreams);
      models := models + [Model(alias, filtered)];
    }
    assert all[..|all|] == all;
    s := Dynamic(d.dyn.version, models);
  }

  lemma {:induction false} FindAppend(us: seq<Upstream>, u: Upstream, provider: Str)
    ensures FindUpstream(us + [u], provider)
            == if FindUpstream(us, provider).Some? then FindUpstream(us, provider)
               else if u.provider == provider then Some(u) else None
  {
    if us != [] {
      assert (us + [u])[1..] == us[1..] + [u];
      FindAppend(us[1..], u, provider);
    }
  }

  lemma {:induction false} FindKept(d: Dispatcher, alias: Str, protocol: Str, us: seq<Upstream>, provider: Str)
    ensures FindUpstream(KeepReachable(d, alias, protocol, us), provider)
            == if Reachable(d, alias, protocol, provider) then FindUpstream(us, provider) else None
  {
    hide Reachable;
    if us != [] {
      var n := |us| - 1;
      var before := KeepReachable(d, alias, protocol, us[..n]);
      FindKept(d, alias, protocol, us[..n], provider);
      FindAppend(us[..n], us[n], provider);
      assert us == us[..n] + [us[n]];
      if Reachable(d, alias, protocol, us[n].provider) {
        FindAppend(before, us[n], provider);
      } else {
        assert KeepReachable(d, alias, protocol, us) == before;
      }
    }
  }

  lemma {:induction false} ResolveAppend(models: seq<Model>, m: Model, alias: Str, provider: Str)
    ensures ResolveModel(models + [m], alias, provider)
            == if ResolveModel(models, alias, provider).Some? then ResolveModel(models, alias, provider)
               else if m.alias == alias then FindUpstream(m.upstreams, provider) else None
  {
    if models != [] {
      assert (models + [m])[1..] == models[1..] + [m];
      ResolveAppend(models[1..], m, alias, provider);
    } else {
      assert [m][1..] == [];
    }
  }

  lemma {:induction false} ResolveInSnapshot(d: Dispatcher, alias: Str, protocol: Str, models: seq<Model>,
                                             provider: Str)
    ensures ResolveModel(SnapshotModels(d, alias, protocol, models), alias, provider)
            == if Reachable(d, alias, protocol, provider) then ResolveModel(models, alias, provider) else None
  {
    hide Reachable, KeepReachable, FindUpstream;
    if models != [] {
      var n := |models| - 1;
      var before, m := SnapshotModels(d, alias, protocol, models[..n]), models[n];
      ResolveInSnapshot(d, alias, protocol, models[..n], provider);
      ResolveAppend(models[..n], m, alias, provider);
      assert models == models[..n] + [m];
      if m.alias == alias {
        FindKept(d, alias, protocol, m.upstreams, provider);
        ResolveAppend(before, Model(alias, KeepReachable(d, alias, protocol, m.upstreams)), alias, provider);
      } else {
        assert SnapshotModels(d, alias, protocol, models) == before;
      }
    }
  }

  /** The snapshot prices a provider exactly as the full configuration does when the failover loop can
      reach it, and not at all when it cannot. */
  lemma SnapshotPreservesPrices(d: Dispatcher, alias: Str, protocol: Str, provider: Str)
    ensures ResolveModel(Snapshot(d, alias, protocol).models, alias, provider)
            == if (exists i ::
                     0 <= i < |RouteFor(d, alias).providers| && RouteFor(d, alias).providers[i].name == provider)
                  && KeyFor(d, provider, protocol) in d.forwarders
               then ResolveModel(d.dyn.models, alias, provider) else None
    ensures Snapshot(d, alias, protocol).version == d.dyn.version
  {
    ResolveInSnapshot(d, alias, protocol, d.dyn.models, provider);
  }

  // ---------------------------------------------------------------------------------------
  // The failover loop
  // ---------------------------------------------------------------------------------------

  /** How one upstream call ends. A 4xx carries its response body unless it could not be read. */
  datatype Attempt =
    | Success(usage: Option<Usage>)
    | BuildFailure
    | Rejected(hasBody: bool)
    | ServerError
    | Timeout

  predicate Retryable(a: Attempt) {
    a.ServerError? || a.Timeout?
  }

  /** A failure that certainly cost nothing: never sent, or explicitly refused. */
  predicate Costless(a: Attempt) {
    a.BuildFailure? || (a.Rejected? && a.hasBody)
  }

  /** The accounting flags of the request context. */
  datatype Flags = Flags(chargePossible: bool, uncertain: bool, attemptRisk: bool)

  const CLEAR := Flags(false, false, false)

  /** `accountUpstreamResult`. */
  function Note(f: Flags, a: Attempt): Flags {
    if a.Success? then Flags(true, false, f.attemptRisk || f.uncertain)
    else if Costless(a) then f
    else Flags(true, true, f.attemptRisk)
  }

  /** The call to candidate `index`. */
  datatype Try = Try(index: nat, key: EndpointKey, reply: Attempt)

  function NoteAll(f: Flags, tries: seq<Try>): Flags
    decreases |tries|
  {
    if tries == [] then f else NoteAll(Note(f, tries[0].reply), tries[1..])
  }

  /** The loop skips a candidate with no forwarder or whose provider does not serve the alias. */
  predicate Eligible(d: Dispatcher, alias: Str, key: EndpointKey) {
    key in d.forwarders && ResolveModel(d.dyn.models, alias, key.provider).Some?
  }

  /** `expandCandidates`. */
  function Keys(d: Dispatcher, names: seq<Str>, protocol: Str): seq<EndpointKey> {
    seq(|names|, i requires 0 <= i < |names| => KeyFor(d, names[i], protocol))
  }

  /** What the outside answers: the reply of candidate `i` if it is called, and whether the dispatch
      marker before that call fails. */
  datatype World = World(reply: nat -> Attempt, hookFails: nat -> bool)

  /** The loop ends with an answer that is not retried, because the dispatch marker failed, or with no
      candidate left. */
  datatype Ending = Answered | MarkerFailed | Exhausted

  datatype Course = Course(tries: seq<Try>, ending: Ending)

  /** The upstream calls the loop makes from candidate `i` on, and how it ends. */
  function CourseFrom(d: Dispatcher, alias: Str, keys: seq<EndpointKey>, w: World, i: nat): Course
    requires i <= |keys|
    decreases |keys| - i
  {
    if i == |keys| then Course([], Exhausted)
    else if !Eligible(d, alias, keys[i]) then CourseFrom(d, alias, keys, w, i + 1)
    else if w.hookFails(i) then Course([], MarkerFailed)
    else if !Retryable(w.reply(i)) then Course([Try(i, keys[i], w.reply(i))], Answered)
    else
      var rest := CourseFrom(d, alias, keys, w, i + 1);
      Course([Try(i, keys[i], w.reply(i))] + rest.tries, rest.ending)
  }

  /** Breaker marks: success closes, a retryable failure counts, a terminal failure is not recorded. */
  function MarksOf(t: Try): seq<(EndpointKey, bool)> {
    if t.reply.Success? then [(t.key, true)] else if Retryable(t.reply) then [(t.key, false)] else []
  }

  function Marks(tries: seq<Try>): seq<(EndpointKey, bool)> {
    if tries == [] then [] else MarksOf(tries[0]) + Marks(tries[1..])
  }

  /** `lastErr` of one candidate. */
  datatype CandidateError = NoForwarder(key: EndpointKey) | NotServed(key: EndpointKey) | Failed(reply: Attempt)

  function ErrorAt(d: Dispatcher, alias: Str, keys: seq<EndpointKey>, w: World, i: nat): CandidateError
    requires i < |keys|
  {
    if keys[i] !in d.forwarders then NoForwarder(keys[i])
    else if ResolveModel(d.dyn.models, alias, keys[i].provider).None? then NotServed(keys[i])
    else Failed(w.reply(i))
  }

  datatype Failure =
    | NoCandidates
    | ConfigurationMismatch(last: CandidateError)
    | AllFailed(last: CandidateError)
    | Terminal(reply: Attempt)
    | DispatchRefused

  datatype DispatchResult = DispatchResult(
    key: Option<EndpointKey>, model: Option<Str>, usage: Option<Usage>, retries: nat, failure: Option<Failure>)

  function Mismatches(d: Dispatcher, alias: Str, keys: seq<EndpointKey>): nat {
    if keys == [] then 0
    else
      var k := keys[|keys| - 1];
      Mismatches(d, alias, keys[..|keys| - 1])
      + if k in d.forwarders && ResolveModel(d.dyn.models, alias, k.provider).None? then 1 else 0
  }

  /** `failoverExhausted`. */
  function ExhaustedFailure(d: Dispatcher, alias: Str, keys: seq<EndpointKey>, w: World): Failure {
    if keys == [] then NoCandidates
    else
      var last := ErrorAt(d, alias, keys, w, |keys| - 1);
      if forall i :: 0 <= i < |keys| ==> ErrorAt(d, alias, keys, w, i).NotServed? then ConfigurationMismatch(last)
      else AllFailed(last)
  }

  /** What the loop returns for the calls it made. */
  function ResultOf(d: Dispatcher, alias: Str, keys: seq<EndpointKey>, w: World, c: Course): DispatchResult {
    match c.ending
    case Exhausted => DispatchResult(None, None, None, |keys|, Some(ExhaustedFailure(d, alias, keys, w)))
    case MarkerFailed => DispatchResult(None, None, None, 0, Some(DispatchRefused))
    case Answered =>
      if c.tries == [] then DispatchResult(None, None, None, 0, None)
      else Answer(d, alias, c.tries[|c.tries| - 1])
  }

  function Answer(d: Dispatcher, alias: Str, t: Try): DispatchResult {
    var u := ResolveModel(d.dyn.models, alias, t.key.provider);
    DispatchResult(Some(t.key), if u.Some? then Some(u.value.upstreamModel) else None,
                   if t.reply.Success? then t.reply.usage else None,
                   t.index, if t.reply.Success? then None else Some(Terminal(t.reply)))
  }

  lemma {:induction false} MismatchCount(d: Dispatcher, alias: Str, keys: seq<EndpointKey>, w: World)
    ensures Mismatches(d, alias, keys) <= |keys|
    ensures Mismatches(d, alias, keys) == |keys| <==> forall i :: 0 <= i < |keys| ==>
              ErrorAt(d, alias, keys, w, i).NotServed?
  {
    hide ResolveModel;
    if keys != [] {
      var n := |keys| - 1;
      MismatchCount(d, alias, keys[..n], w);
      assert forall i :: 0 <= i < n ==> ErrorAt(d, alias, keys, w, i) == ErrorAt(d, alias, keys[..n], w, i);
      assert ErrorAt(d, alias, keys, w, n).NotServed?
        <==> keys[n] in d.forwarders && ResolveModel(d.dyn.models, alias, keys[n].provider).None?;
    }
  }

  /** Who sent the request and what it asks for; set before the plugins run. */
  datatype Caller = Caller(
    tenant: Str, group: Str, key: Str, app: Option<int>, env: Str, requestId: Str, alias: Str, maxTokens: Option<int>)

  /** `plugin.Context`: the request's mutable accounting state. */
  class Context {
    const caller: Caller
    var flags: Flags
    var snapshot: Option<Dynamic>
    var reserved: int
    var reservation: Str
    /** The reservation that the deferred finalizer and the dispatch marker are bound to, once set. */
    var hooks: Option<Str>
    var done: bool
    var usage: Option<Usage>
    var hit: EndpointKey
    var rejectStatus: Option<int>

    constructor (caller: Caller, snapshot: Option<Dynamic>)
      ensures this.caller == caller && this.snapshot == snapshot
      ensures flags == CLEAR && reservation == [] && hooks == None && !done && usage == None && rejectStatus == None
    {
      this.caller := caller;
      this.snapshot := snapshot;
      flags, reserved, reservation, hooks, done, usage, rejectStatus := CLEAR, 0, [], None, false, None, None;
      hit := EndpointKey([], []);
    }
  }

  /** The calls from candidate `i` on, given what was noted and marked before them, lead to `all`. */
  ghost predicate Ahead(d: Dispatcher, alias: Str, keys: seq<EndpointKey>, w: World, i: nat, f: Flags,
                        marks: seq<(EndpointKey, bool)>, f0: Flags)
    requires i <= |keys|
  {
    var rest, all := CourseFrom(d, alias, keys, w, i), CourseFrom(d, alias, keys, w, 0);
    && NoteAll(f, rest.tries) == NoteAll(f0, all.tries)
    && marks + Marks(rest.tries) == Marks(all.tries)
    && ResultOf(d, alias, keys, w, rest) == ResultOf(d, alias, keys, w, all)
  }

  lemma AheadSkips(d: Dispatcher, alias: Str, keys: seq<EndpointKey>, w: World, i: nat, f: Flags,
                   marks: seq<(EndpointKey, bool)>, f0: Flags)
    requires i < |keys| && Ahead(d, alias, keys, w, i, f, marks, f0) && !Eligible(d, alias, keys[i])
    ensures Ahead(d, alias, keys, w, i + 1, f, marks, f0)
  {
    hide Eligible, ResultOf, NoteAll, Marks;
  }

  lemma AheadRetries(d: Dispatcher, alias: Str, keys: seq<EndpointKey>, w: World, i: nat, f: Flags,
                     marks: seq<(EndpointKey, bool)>, f0: Flags)
    requires i < |keys| && Ahead(d, alias, keys, w, i, f, marks, f0)
    requires Eligible(d, alias, keys[i]) && !w.hookFails(i) && Retryable(w.reply(i))
    ensures Ahead(d, alias, keys, w, i + 1, Note(f, w.reply(i)), marks + [(keys[i], false)], f0)
  {
    hide Eligible, Note, ExhaustedFailure, Answer;
    var t := Try(i, keys[i], w.reply(i));
    var here, rest := CourseFrom(d, alias, keys, w, i), CourseFrom(d, alias, keys, w, i + 1);
    assert here.tries == [t] + rest.tries && here.tries[1..] == rest.tries;
    assert marks + ([(keys[i], false)] + Marks(rest.tries)) == marks + [(keys[i], false)] + Marks(rest.tries);
    AnsweredHasTry(d, alias, keys, w, i + 1);
  }

  lemma {:induction false} AnsweredHasTry(d: Dispatcher, alias: Str, keys: seq<EndpointKey>, w: World, i: nat)
    requires i <= |keys|
    ensures var c := CourseFrom(d, alias, keys, w, i); c.ending == Answered ==> c.tries != []
    decreases |keys| - i
  {
    hide Eligible;
    if i < |keys| {
      AnsweredHasTry(d, alias, keys, w, i + 1);
    }
  }

  lemma AheadEnds(d: Dispatcher, alias: Str, keys: seq<EndpointKey>, w: World, i: nat, f: Flags,
                  marks: seq<(EndpointKey, bool)>, f0: Flags)
    requires i < |keys| && Ahead(d, alias, keys, w, i, f, marks, f0) && Eligible(d, alias, keys[i])
    requires w.hookFails(i) || !Retryable(w.reply(i))
    ensures var all := CourseFrom(d, alias, keys, w, 0);
            if w.hookFails(i) then
              NoteAll(f0, all.tries) == f && Marks(all.tries) == marks
              && ResultOf(d, alias, keys, w, all) == DispatchResult(None, None, None, 0, Some(DispatchRefused))
            else
              var t := Try(i, keys[i], w.reply(i));
              NoteAll(f0, all.tries) == Note(f, w.reply(i)) && Marks(all.tries) == marks + MarksOf(t)
              && ResultOf(d, alias, keys, w, all) == Answer(d, alias, t)
  {
    hide Eligible, Note, ExhaustedFailure, Answer;
    if !w.hookFails(i) {
      var t := Try(i, keys[i], w.reply(i));
      var rest := CourseFrom(d, alias, keys, w, i).tries;
      assert rest == [t] && rest[1..] == [];
      assert NoteAll(f, rest) == NoteAll(Note(f, t.reply), rest[1..]);
      assert Marks(rest) == MarksOf(t) + Marks(rest[1..]) == MarksOf(t);
    }
  }

  lemma AheadExhausts(d: Dispatcher, alias: Str, keys: seq<EndpointKey>, w: World, f: Flags,
                      marks: seq<(EndpointKey, bool)>, f0: Flags)
    requires Ahead(d, alias, keys, w, |keys|, f, marks, f0)
    ensures var all := CourseFrom(d, alias, keys, w, 0);
            && NoteAll(f0, all.tries) == f && Marks(all.tries) == marks
            && ResultOf(d, alias, keys, w, all)
               == DispatchResult(None, None, None, |keys|, Some(ExhaustedFailure(d, alias, keys, w)))
  {
    hide Eligible, Note, ExhaustedFailure, Answer;
  }

  /** `Forward`: tries candidates in order, updating the context's flags and the breaker. */
  method Forward(d: Dispatcher, c: Context, alias: Str, names: seq<Str>, protocol: Str, w: World)
    returns (r: DispatchResult, marks: seq<(EndpointKey, bool)>)
    modifies c`flags
    ensures var keys := Keys(d, names, protocol);
            var course := CourseFrom(d, alias, keys, w, 0);
            && c.flags == NoteAll(old(c.flags), course.tries)
            && marks == Marks(course.tries)
            && r == ResultOf(d, alias, keys, w, course)
  {
    hide CourseFrom, ResultOf, NoteAll, Marks, ResolveModel, KeyFor, Note, Ahead;
    var keys := Keys(d, names, protocol);
    var mismatches := 0;
    var lastErr: Option<CandidateError> := None;
    marks := [];
    AheadStarts(d, alias, keys, w, c.flags);
    for i := 0 to |keys|
      invariant Ahead(d, alias, keys, w, i, c.flags, marks, old(c.flags))
      invariant mismatches == Mismatches(d, alias, keys[..i])
      invariant lastErr == if i == 0 then None else Some(ErrorAt(d, alias, keys, w, i - 1))
    {
      assert keys[..i + 1][..i] == keys[..i];
      var key := keys[i];
      if key !in d.forwarders {
        lastErr := Some(NoForwarder(key));
        AheadSkips(d, alias, keys, w, i, c.flags, marks, old(c.flags));
        continue;
      }
      var upstream := ResolveModel(d.dyn.models, alias, key.provider);
      if upstream.None? {
        lastErr := Some(NotServed(key));
        mismatches := mismatches + 1;
        AheadSkips(d, alias, keys, w, i, c.flags, marks, old(c.flags));
        continue;
      }
      if w.hookFails(i) {
        AheadEnds(d, alias, keys, w, i, c.flags, marks, old(c.flags));
        return DispatchResult(None, None, None, 0, Some(DispatchRefused)), marks;
      }
      var reply := w.reply(i);
      ghost var flags, before := c.flags, marks;
      c.flags := Note(c.flags, reply);
      if reply.Success? {
        marks := marks + [(key, true)];
        AheadEnds(d, alias, keys, w, i, flags, before, old(c.flags));
        return DispatchResult(Some(key), Some(upstream.value.upstreamModel), reply.usage, i, None), marks;
      }
      lastErr := Some(Failed(reply));
      if !Retryable(reply) {
        AheadEnds(d, alias, keys, w, i, flags, before, old(c.flags));
        return DispatchResult(Some(key), Some(upstream.value.upstreamModel), None, i, Some(Terminal(reply))), marks;
      }
      marks := marks + [(key, false)];
      AheadRetries(d, alias, keys, w, i, flags, before, old(c.flags));
    }
    AheadExhausts(d, alias, keys, w, c.flags, marks, old(c.flags));
    assert keys[..|keys|] == keys;
    MismatchCount(d, alias, keys, w);
    var failure := NoCandidates;
    if lastErr.Some? {
      failure := if mismatches == |keys| then ConfigurationMismatch(lastErr.value) else AllFailed(lastErr.value);
    }
    r := DispatchResult(None, None, None, |keys|, Some(failure));
  }

  lemma AheadStarts(d: Dispatcher, alias: Str, keys: seq<EndpointKey>, w: World, f: Flags)
    ensures Ahead(d, alias, keys, w, 0, f, [], f)
  {
    hide CourseFrom, ResultOf, NoteAll, Marks;
  }

  /** Every call went to an eligible candidate of the list, in order; every call but the last ended in a
      server error or a timeout, and the last one did unless the course was answered. */
  ghost predicate Shaped(d: Dispatcher, alias: Str, keys: seq<EndpointKey>, i: nat, c: Course) {
    && (forall j :: 0 <= j < |c.tries| ==>
          i <= c.tries[j].index < |keys| && c.tries[j].key == keys[c.tries[j].index]
          && Eligible(d, alias, c.tries[j].key))
    && (forall j, k :: 0 <= j < k < |c.tries| ==>
          c.tries[j].index < c.tries[k].index && (c.tries[j].reply == ServerError || c.tries[j].reply == Timeout))
    && (c.ending == Answered ==> c.tries != [])
    && (c.tries != [] ==>
          var last := c.tries[|c.tries| - 1].reply;
          if c.ending == Answered then last.Success? || last == BuildFailure || last.Rejected?
          else last == ServerError || last == Timeout)
  }

  lemma {:induction false} CourseShape(d: Dispatcher, alias: Str, keys: seq<EndpointKey>, w: World, i: nat)
    requires i <= |keys|
    ensures Shaped(d, alias, keys, i, CourseFrom(d, alias, keys, w, i))
    decreases |keys| - i
  {
    hide Eligible, Shaped;
    var here := CourseFrom(d, alias, keys, w, i);
    if i == |keys| {
      NoTries(d, alias, keys, i, here);
    } else if !Eligible(d, alias, keys[i]) {
      CourseShape(d, alias, keys, w, i + 1);
      ShapedFrom(d, alias, keys, i, here);
    } else if w.hookFails(i) {
      NoTries(d, alias, keys, i, here);
    } else if !Retryable(w.reply(i)) {
      OneTry(d, alias, keys, i, Try(i, keys[i], w.reply(i)), here);
    } else {
      var rest := CourseFrom(d, alias, keys, w, i + 1);
      CourseShape(d, alias, keys, w, i + 1);
      MoreTries(d, alias, keys, i, Try(i, keys[i], w.reply(i)), rest, here);
    }
  }

  lemma NoTries(d: Dispatcher, alias: Str, keys: seq<EndpointKey>, i: nat, c: Course)
    requires c.tries == [] && c.ending != Answered
    ensures Shaped(d, alias, keys, i, c)
  {
  }

  lemma ShapedFrom(d: Dispatcher, alias: Str, keys: seq<EndpointKey>, i: nat, c: Course)
    requires Shaped(d, alias, keys, i + 1, c)
    ensures Shaped(d, alias, keys, i, c)
  {
    hide Eligible;
  }

  lemma OneTry(d: Dispatcher, alias: Str, keys: seq<EndpointKey>, i: nat, t: Try, c: Course)
    requires i < |keys| && t.index == i && t.key == keys[i] && Eligible(d, alias, t.key) && !Retryable(t.reply)
    requires c == Course([t], Answered)
    ensures Shaped(d, alias, keys, i, c)
  {
    hide Eligible;
  }

  lemma MoreTries(d: Dispatcher, alias: Str, keys: seq<EndpointKey>, i: nat, t: Try, rest: Course, c: Course)
    requires i < |keys| && t.index == i && t.key == keys[i] && Eligible(d, alias, t.key) && Retryable(t.reply)
    requires Shaped(d, alias, keys, i + 1, rest) && c == Course([t] + rest.tries, rest.ending)
    ensures Shaped(d, alias, keys, i, c)
  {
    hide Eligible;
    forall j | 0 <= j < |c.tries|
      ensures i <= c.tries[j].index < |keys| && c.tries[j].key == keys[c.tries[j].index]
              && Eligible(d, alias, c.tries[j].key)
      ensures j > 0 ==> c.tries[j] == rest.tries[j - 1]
    {
    }
    assert rest.tries != [] ==> c.tries[|c.tries| - 1] == rest.tries[|rest.tries| - 1];
  }

  /** Every provider the loop calls on its own route is priced in the snapshot as in the full
      configuration. */
  lemma AttemptsArePriced(d: Dispatcher, alias: Str, names: seq<Str>, protocol: Str, w: World, j: nat)
    requires forall i :: 0 <= i < |names| ==> OnRoute(RouteFor(d, alias), names[i])
    requires j < |CourseFrom(d, alias, Keys(d, names, protocol), w, 0).tries|
    ensures var provider := CourseFrom(d, alias, Keys(d, names, protocol), w, 0).tries[j].key.provider;
            && ResolveModel(d.dyn.models, alias, provider).Some?
            && ResolveModel(Snapshot(d, alias, protocol).models, alias, provider)
               == ResolveModel(d.dyn.models, alias, provider)
  {
    hide CourseFrom, KeyFor, RouteFor, Snapshot, ResolveModel;
    var keys := Keys(d, names, protocol);
    CourseShape(d, alias, keys, w, 0);
    var t := CourseFrom(d, alias, keys, w, 0).tries[j];
    KeyNames(d, names[t.index], protocol);
    SnapshotPreservesPrices(d, alias, protocol, t.key.provider);
  }

  lemma KeyNames(d: Dispatcher, provider: Str, protocol: Str)
    ensures KeyFor(d, provider, protocol).provider == provider
  {
  }
}
