/**
 Preparing a request for one candidate endpoint (`internal/proxy/preparer.go`), and what that means for
 the reservation made before dispatch.
 */
module Prepare {
  import opened Text
  import opened Cost
  import opened Dispatch
  import opened Billing
  import opened Normalize

  function AdapterAmong(eps: seq<Endpoint>, id: Str): Str {
    if eps == [] then []
    else if EndpointId(eps[0]) == id then eps[0].adapter
    else AdapterAmong(eps[1..], id)
  }

  /** `adapterFor`; "" when unknown. */
  function AdapterFor(d: Dispatcher, provider: Str, id: Str): Str {
    if provider in d.endpoints then AdapterAmong(d.endpoints[provider], id) else []
  }

  function TargetFor(d: Dispatcher, key: EndpointKey, u: Upstream): Target {
    var claude := AdapterFor(d, key.provider, key.endpoint) == CLAUDE;
    Target(u.defaultMaxTokens, claude, claude)
  }

  /** `Prepare`: the alias becomes the upstream's model, and messages are normalized exactly for Claude
      endpoints. The client's request is left as it was, ready for the next candidate. */
  method Prepare(d: Dispatcher, req: UnifiedRequest, key: EndpointKey) returns (out: Option<UnifiedRequest>)
    ensures out.None? <==> ResolveModel(d.dyn.models, req.model, key.provider).None?
    ensures out.Some? ==>
              var u := ResolveModel(d.dyn.models, req.model, key.provider).value;
              && fresh(out.value) && fresh(out.value.messages)
              && out.value.model == u.upstreamModel
              && out.value.maxTokens == DefaultTokens(req.maxTokens, u.defaultMaxTokens)
              && out.value.messages[..] == (if AdapterFor(d, key.provider, key.endpoint) == CLAUDE
                                            then Normal(req.messages[..]) else req.messages[..])
    ensures req.messages[..] == old(req.messages[..])
  {
    var u := ResolveModel(d.dyn.models, req.model, key.provider);
    if u.None? {
      return None;
    }
    var target := TargetFor(d, key, u.value);
    var prepared := Apply(req, target);
    prepared.model := u.value.upstreamModel;
    out := Some(prepared);
  }

  /** Endpoint ids are unique within a provider. */
  predicate UniqueIds(eps: seq<Endpoint>) {
    forall i, j :: 0 <= i < j < |eps| ==> EndpointId(eps[i]) != EndpointId(eps[j])
  }

  lemma {:induction false} AdapterAt(eps: seq<Endpoint>, i: nat)
    requires UniqueIds(eps) && i < |eps|
    ensures AdapterAmong(eps, EndpointId(eps[i])) == eps[i].adapter
  {
    hide EndpointId;
    if i > 0 {
      AdapterAt(eps[1..], i - 1);
      assert EndpointId(eps[0]) != EndpointId(eps[i]);
    }
  }

  lemma {:induction false} FoundAdapter(eps: seq<Endpoint>, adapter: Str) returns (i: nat)
    requires FindAdapter(eps, adapter).Some?
    ensures i < |eps| && eps[i] == FindAdapter(eps, adapter).value && eps[i].adapter == adapter
  {
    i := 0;
    if eps[0].adapter != adapter {
      var k := FoundAdapter(eps[1..], adapter);
      i := k + 1;
    }
  }

  /** The id the dispatcher carries leads back to the endpoint it picked; and a provider with an endpoint
      for the client's protocol is always addressed in that protocol. */
  lemma PickedEndpointIsUsed(d: Dispatcher, provider: Str, protocol: Str)
    requires PickEndpoint(d, provider, protocol).Some? && UniqueIds(d.endpoints[provider])
    ensures var adapter := AdapterFor(d, provider, KeyFor(d, provider, protocol).endpoint);
            && adapter == PickEndpoint(d, provider, protocol).value.adapter
            && (protocol != [] && FindAdapter(d.endpoints[provider], AdapterName(protocol)).Some? ==>
                  adapter == AdapterName(protocol))
  {
    hide EndpointId;
    var eps := d.endpoints[provider];
    if protocol != [] && FindAdapter(eps, AdapterName(protocol)).Some? {
      var i := FoundAdapter(eps, AdapterName(protocol));
      AdapterAt(eps, i);
    } else {
      AdapterAt(eps, 0);
    }
  }

  lemma {:induction false} MaxDefaultBounds(us: seq<Upstream>, i: nat)
    requires i < |us|
    ensures us[i].defaultMaxTokens <= MaxDefault(us)
  {
    if i < |us| - 1 {
      MaxDefaultBounds(us[..|us| - 1], i);
    }
  }

  /** The max_tokens sent with any attempt never exceeds the token count the estimate was made for. */
  lemma SentTokensWithinEstimate(models: seq<Model>, alias: Str, provider: Str, maxTokens: Option<int>, ceiling: int)
    requires ResolveModel(models, alias, provider).Some?
    ensures var sent := DefaultTokens(maxTokens, ResolveModel(models, alias, provider).value.defaultMaxTokens);
            sent.Some? ==> sent.value <= EffectiveTokens(AliasUpstreams(models, alias), maxTokens, ceiling)
  {
    hide ResolveModel, AliasUpstreams, MaxDefault;
    var us := AliasUpstreams(models, alias);
    ResolvedAmong(models, alias, provider);
    var i :| 0 <= i < |us| && us[i] == ResolveModel(models, alias, provider).value;
    MaxDefaultBounds(us, i);
  }

  /** So an upstream that keeps to the max_tokens it was sent cannot charge more for completion than was
      reserved, whichever candidate it is. */
  lemma CompletionIsReserved(d: Dispatcher, alias: Str, names: seq<Str>, protocol: Str, w: World, j: nat,
                             maxTokens: Option<int>, ceiling: int, tokens: int)
    requires forall i :: 0 <= i < |names| ==> OnRoute(RouteFor(d, alias), names[i])
    requires j < |CourseFrom(d, alias, Keys(d, names, protocol), w, 0).tries|
    requires EstimateOf(AliasUpstreams(Snapshot(d, alias, protocol).models, alias), maxTokens, ceiling) >= 0
    requires var u := ResolveModel(d.dyn.models, alias,
                                   CourseFrom(d, alias, Keys(d, names, protocol), w, 0).tries[j].key.provider);
             u.Some? && var sent := DefaultTokens(maxTokens, u.value.defaultMaxTokens);
             sent.Some? && 0 <= tokens <= sent.value && ValidCharge(Usage(0, tokens, 0), u.value.pricing)
    ensures var u := ResolveModel(d.dyn.models, alias,
                                  CourseFrom(d, alias, Keys(d, names, protocol), w, 0).tries[j].key.provider);
            var charge := CheckedCost(Some(Usage(0, tokens, 0)), u.value.pricing);
            charge.Some?
            && charge.value <= EstimateOf(AliasUpstreams(Snapshot(d, alias, protocol).models, alias), maxTokens,
                                          ceiling)
  {
    hide CourseFrom, ResolveModel, Snapshot, OnRoute, RouteFor, Keys, CheckedCost, EstimateOf, EffectiveTokens,
         AliasUpstreams;
    AttemptsArePriced(d, alias, names, protocol, w, j);
    var provider := CourseFrom(d, alias, Keys(d, names, protocol), w, 0).tries[j].key.provider;
    SentTokensWithinEstimate(Snapshot(d, alias, protocol).models, alias, provider, maxTokens, ceiling);
    HitIsCovered(d, alias, names, protocol, w, j, maxTokens, ceiling, tokens);
  }
}
