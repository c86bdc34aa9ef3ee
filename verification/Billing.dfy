/**
 The billing plugin (`internal/billing/plugin.go`, `internal/billing/plugin_accounting.go`) in
 accounting mode: the estimate, the price checks before reserving, and the classification of every
 attempt sequence into one settlement.
 */
module Billing {
  import opened Text
  import opened Cost
  import opened Dispatch
  import opened Tables
  import opened Transactions
  import opened Store

  // ---------------------------------------------------------------------------------------
  // The estimate
  // ---------------------------------------------------------------------------------------

  /** The upstreams of every model with this alias, in configuration order. */
  function AliasUpstreams(models: seq<Model>, alias: Str): seq<Upstream> {
    if models == [] then []
    else
      var n := |models| - 1;
      AliasUpstreams(models[..n], alias) + if models[n].alias == alias then models[n].upstreams else []
  }

  function MaxRate(us: seq<Upstream>): int {
    if us == [] then 0 else Max(MaxRate(us[..|us| - 1]), us[|us| - 1].pricing.completionRate)
  }

  function MaxDefault(us: seq<Upstream>): int {
    if us == [] then 0 else Max(MaxDefault(us[..|us| - 1]), us[|us| - 1].defaultMaxTokens)
  }

  const DEFAULT_CEILING := 4096

  /** `WithMaxTokensCeiling`. */
  function Ceiling(configured: int): int {
    if configured > 0 then configured else DEFAULT_CEILING
  }

  function EffectiveTokens(us: seq<Upstream>, maxTokens: Option<int>, ceiling: int): int {
    if maxTokens.Some? then maxTokens.value
    else if MaxDefault(us) == 0 then ceiling
    else MaxDefault(us)
  }

  /** The completion-only charge at the highest rate, or -1 when it is negative or not representable. */
  function EstimateOf(us: seq<Upstream>, maxTokens: Option<int>, ceiling: int): int {
    var exact := EffectiveTokens(us, maxTokens, ceiling) * MaxRate(us);
    if EffectiveTokens(us, maxTokens, ceiling) < 0 || exact + HALF > MAX_INT64 then -1
    else (exact + HALF) / MILLION
  }

  lemma GuardIsExact(tokens: int, rate: int)
    requires tokens >= 0 && rate > 0
    ensures tokens > (MAX_INT64 - HALF) / rate <==> tokens * rate + HALF > MAX_INT64
  {
    var limit := MAX_INT64 - HALF;
    var q := limit / rate;
    assert q * rate <= limit < q * rate + rate;
    if tokens > q {
      ProductBound(q + 1, rate, tokens, rate);
      assert (q + 1) * rate == q * rate + rate;
    } else {
      ProductBound(tokens, rate, q, rate);
    }
  }

  lemma MaximaAppend(us: seq<Upstream>, u: Upstream)
    ensures MaxRate(us + [u]) == Max(MaxRate(us), u.pricing.completionRate)
    ensures MaxDefault(us + [u]) == Max(MaxDefault(us), u.defaultMaxTokens)
  {
    assert (us + [u])[..|us|] == us;
  }

  lemma AliasAppend(models: seq<Model>, m: Model, alias: Str)
    ensures AliasUpstreams(models + [m], alias)
            == AliasUpstreams(models, alias) + if m.alias == alias then m.upstreams else []
  {
    assert (models + [m])[..|models|] == models;
  }

  /** The inner loop of `estimate`. */
  method ModelMaxima(us: seq<Upstream>, rate: int, default: int, ghost before: seq<Upstream>)
    returns (maxRate: int, maxDefault: int)
    requires rate == MaxRate(before) && default == MaxDefault(before)
    ensures maxRate == MaxRate(before + us) && maxDefault == MaxDefault(before + us)
  {
    hide MaxRate, MaxDefault;
    maxRate, maxDefault := rate, default;
    assert before + us[..0] == before;
    for j := 0 to |us|
      invariant maxRate == MaxRate(before + us[..j]) && maxDefault == MaxDefault(before + us[..j])
    {
      MaximaAppend(before + us[..j], us[j]);
      assert before + us[..j] + [us[j]] == before + us[..j + 1];
      maxRate := Max(maxRate, us[j].pricing.completionRate);
      maxDefault := Max(maxDefault, us[j].defaultMaxTokens);
    }
    assert us[..|us|] == us;
  }

  /** The outer loop of `estimate`. */
  method Maxima(models: seq<Model>, alias: Str) returns (maxRate: int, maxDefault: int)
    ensures maxRate == MaxRate(AliasUpstreams(models, alias)) && maxDefault == MaxDefault(AliasUpstreams(models, alias))
  {
    maxRate, maxDefault := 0, 0;
    assert MaxRate([]) == 0 && MaxDefault([]) == 0;
    assert AliasUpstreams(models[..0], alias) == [];
    hide MaxRate, MaxDefault;
    for i := 0 to |models|
      invariant maxRate == MaxRate(AliasUpstreams(models[..i], alias))
      invariant maxDefault == MaxDefault(AliasUpstreams(models[..i], alias))
    {
      AliasAppend(models[..i], models[i], alias);
      assert models[..i] + [models[i]] == models[..i + 1];
      ghost var before := AliasUpstreams(models[..i], alias);
      if models[i].alias != alias {
        assert before + [] == before;
        continue;
      }
      maxRate, maxDefault := ModelMaxima(models[i].upstreams, maxRate, maxDefault, before);
    }
    assert models[..|models|] == models;
  }

  /** `estimate`, in int64 arithmetic. */
  method Estimate(models: seq<Model>, alias: Str, maxTokens: Option<int>, ceiling: int) returns (r: int)
    ensures r == EstimateOf(AliasUpstreams(models, alias), maxTokens, ceiling)
  {
    hide MaxRate, MaxDefault, AliasUpstreams;
    var maxRate, maxDefault := Maxima(models, alias);
    MaxRateNonNegative(AliasUpstreams(models, alias));
    var tokens := maxDefault;
    if tokens == 0 {
      tokens := ceiling;
    }
    if maxTokens.Some? {
      tokens := maxTokens.value;
    }
    if tokens < 0 || maxRate < 0 || (maxRate > 0 && tokens > (MAX_INT64 - HALF) / maxRate) {
      if tokens >= 0 {
        GuardIsExact(tokens, maxRate);
      }
      return -1;
    }
    if maxRate > 0 {
      GuardIsExact(tokens, maxRate);
    }
    ProductBound(tokens, maxRate, tokens, maxRate);
    r := Quo(Wrap64(Wrap64(tokens * maxRate) + HALF), MILLION);
  }

  lemma {:induction false} MaxRateBounds(us: seq<Upstream>, i: nat)
    requires i < |us|
    ensures us[i].pricing.completionRate <= MaxRate(us)
  {
    if i < |us| - 1 {
      MaxRateBounds(us[..|us| - 1], i);
    }
  }

  lemma {:induction false} MaxRateNonNegative(us: seq<Upstream>)
    ensures 0 <= MaxRate(us)
  {
    if us != [] {
      MaxRateNonNegative(us[..|us| - 1]);
    }
  }

  lemma {:induction false} FoundAmong(us: seq<Upstream>, provider: Str)
    requires FindUpstream(us, provider).Some?
    ensures exists i :: 0 <= i < |us| && us[i] == FindUpstream(us, provider).value
  {
    if us[0].provider != provider {
      FoundAmong(us[1..], provider);
      var i :| 0 <= i < |us[1..]| && us[1..][i] == FindUpstream(us, provider).value;
      assert us[i + 1] == FindUpstream(us, provider).value;
    }
  }

  lemma {:induction false} ResolvedAmong(models: seq<Model>, alias: Str, provider: Str)
    requires ResolveModel(models, alias, provider).Some?
    ensures ResolveModel(models, alias, provider).value in AliasUpstreams(models, alias)
  {
    hide FindUpstream;
    var n := |models| - 1;
    var m := models[n];
    assert models == models[..n] + [m];
    ResolveAppend(models[..n], m, alias, provider);
    if ResolveModel(models[..n], alias, provider).Some? {
      ResolvedAmong(models[..n], alias, provider);
    } else {
      FoundAmong(m.upstreams, provider);
    }
  }

  /** The reservation covers what the hit provider can charge for completion: for every upstream the
      alias resolves to, any completion within the effective maximum costs at most the estimate. */
  lemma EstimateCovers(models: seq<Model>, alias: Str, provider: Str, maxTokens: Option<int>, ceiling: int, tokens: int)
    requires ResolveModel(models, alias, provider).Some?
    requires EstimateOf(AliasUpstreams(models, alias), maxTokens, ceiling) >= 0
    requires 0 <= tokens <= EffectiveTokens(AliasUpstreams(models, alias), maxTokens, ceiling)
    requires ValidCharge(Usage(0, tokens, 0), ResolveModel(models, alias, provider).value.pricing)
    ensures var charge := CheckedCost(Some(Usage(0, tokens, 0)), ResolveModel(models, alias, provider).value.pricing);
            charge.Some? && charge.value <= EstimateOf(AliasUpstreams(models, alias), maxTokens, ceiling)
  {
    hide ResolveModel, AliasUpstreams, MaxRate, MaxDefault;
    var us, p := AliasUpstreams(models, alias), ResolveModel(models, alias, provider).value.pricing;
    ResolvedAmong(models, alias, provider);
    var i :| 0 <= i < |us| && us[i] == ResolveModel(models, alias, provider).value;
    MaxRateBounds(us, i);
    CompletionOnly(p, tokens);
    ProductBound(tokens, p.completionRate, EffectiveTokens(us, maxTokens, ceiling), MaxRate(us));
  }

  lemma CompletionOnly(p: Pricing, tokens: int)
    requires ValidCharge(Usage(0, tokens, 0), p)
    ensures Micros(Usage(0, tokens, 0), p) == tokens * p.completionRate >= 0
  {
    ProductBound(tokens, p.completionRate, tokens, p.completionRate);
  }

  /** An estimate the plugin accepts is a representable amount and never below the exact product by more
      than half a unit. */
  lemma AcceptedEstimateIsExact(us: seq<Upstream>, maxTokens: Option<int>, ceiling: int)
    requires EstimateOf(us, maxTokens, ceiling) >= 0
    ensures var e, exact := EstimateOf(us, maxTokens, ceiling), EffectiveTokens(us, maxTokens, ceiling) * MaxRate(us);
            e <= MAX_INT64 && exact - HALF < e * MILLION <= exact + HALF
  {
    hide MaxRate, EffectiveTokens;
    MaxRateNonNegative(us);
    ProductBound(EffectiveTokens(us, maxTokens, ceiling), MaxRate(us), EffectiveTokens(us, maxTokens, ceiling),
                 MaxRate(us));
  }

  /** `r` is the largest of 0 and the completion rates; `n` of 0 and the default token counts. */
  ghost predicate Largest(us: seq<Upstream>, r: int, n: int) {
    && r >= 0 && n >= 0
    && (forall i :: 0 <= i < |us| ==> us[i].pricing.completionRate <= r && us[i].defaultMaxTokens <= n)
    && (r == 0 || exists i :: 0 <= i < |us| && us[i].pricing.completionRate == r)
    && (n == 0 || exists i :: 0 <= i < |us| && us[i].defaultMaxTokens == n)
  }

  lemma {:induction false} MaximaAreLargest(us: seq<Upstream>)
    ensures Largest(us, MaxRate(us), MaxDefault(us))
  {
    if us != [] {
      var n := |us| - 1;
      MaximaAreLargest(us[..n]);
      assert us == us[..n] + [us[n]];
      assert forall i :: 0 <= i < n ==> us[i] == us[..n][i];
      assert us[n].pricing.completionRate == MaxRate(us) || MaxRate(us) == MaxRate(us[..n]);
    }
  }

  /** The upstreams the estimate ranges over are those of the models with the alias. */
  lemma {:induction false} AliasUpstreamsAre(models: seq<Model>, alias: Str, u: Upstream)
    ensures u in AliasUpstreams(models, alias)
            <==> exists m :: 0 <= m < |models| && models[m].alias == alias && u in models[m].upstreams
  {
    if models != [] {
      var n := |models| - 1;
      AliasUpstreamsAre(models[..n], alias, u);
      assert models == models[..n] + [models[n]];
      assert forall m :: 0 <= m < n ==> models[m] == models[..n][m];
    }
  }

  /** The estimate from the fields alone: the client's token limit, else the largest default, else the
      ceiling, at the highest rate, rounded half up; -1 for a negative count or a product beyond 64 bits. */
  lemma EstimateFromFields(us: seq<Upstream>, maxTokens: Option<int>, configured: int, rate: int, default: int)
    requires Largest(us, rate, default)
    ensures var ceiling := if configured > 0 then configured else 4096;
            var tokens := if maxTokens.Some? then maxTokens.value else if default > 0 then default else ceiling;
            EstimateOf(us, maxTokens, Ceiling(configured))
            == if tokens < 0 || tokens * rate + 500_000 > 0x7fff_ffff_ffff_ffff then -1
               else (tokens * rate + 500_000) / 1_000_000
  {
    hide MaxRate, MaxDefault;
    MaximaAreLargest(us);
    assert MaxRate(us) == rate && MaxDefault(us) == default;
  }

  /** An estimate is zero exactly when the exact product rounds to zero, so a configured rate alone does
      not make it positive. */
  lemma ZeroEstimateExact(us: seq<Upstream>, maxTokens: Option<int>, ceiling: int)
    ensures EstimateOf(us, maxTokens, ceiling) == 0
            <==> 0 <= EffectiveTokens(us, maxTokens, ceiling)
                 && EffectiveTokens(us, maxTokens, ceiling) * MaxRate(us) < HALF
  {
    hide MaxRate, EffectiveTokens;
    MaxRateNonNegative(us);
    var tokens := EffectiveTokens(us, maxTokens, ceiling);
    if tokens >= 0 {
      ProductBound(tokens, MaxRate(us), tokens, MaxRate(us));
    }
  }

  // ---------------------------------------------------------------------------------------
  // Price checks before reserving
  // ---------------------------------------------------------------------------------------

  function FirstModel(models: seq<Model>, alias: Str): Option<Model> {
    if models == [] then None
    else if models[0].alias == alias then Some(models[0])
    else FirstModel(models[1..], alias)
  }

  predicate SoundPrice(p: Pricing, currency: Str) {
    && currency != [] && Lower(p.currency) == currency
    && p.promptRate >= 0 && p.completionRate >= 0 && 0 <= p.cacheMultiplier <= MILLION
  }

  predicate AllSound(us: seq<Upstream>, currency: Str) {
    forall i :: 0 <= i < |us| ==> SoundPrice(us[i].pricing, currency)
  }

  /** The one currency in which every upstream of the model has a sound price. */
  function ModelCurrency(m: Option<Model>): Option<Str> {
    if m.None? || m.value.upstreams == [] then None
    else
      var c := Lower(m.value.upstreams[0].pricing.currency);
      if AllSound(m.value.upstreams, c) then Some(c) else None
  }

  /** The checks of `reserveAccounted`. */
  method CheckPrices(models: seq<Model>, alias: Str) returns (r: Option<Str>)
    ensures r == ModelCurrency(FirstModel(models, alias))
  {
    hide Lower;
    var i := 0;
    while i < |models| && models[i].alias != alias
      invariant 0 <= i <= |models| && FirstModel(models, alias) == FirstModel(models[i..], alias)
    {
      assert models[i..][1..] == models[i + 1..];
      i := i + 1;
    }
    if i == |models| {
      return None;
    }
    assert FirstModel(models, alias) == Some(models[i]);
    var us, currency := models[i].upstreams, [];
    if us == [] {
      return None;
    }
    for j := 0 to |us|
      invariant AllSound(us[..j], currency)
      invariant currency == if j == 0 then [] else Lower(us[0].pricing.currency)
      invariant j > 0 ==> currency != []
    {
      var p := us[j].pricing;
      var c := Lower(p.currency);
      if c == [] || p.promptRate < 0 || p.completionRate < 0 || p.cacheMultiplier < 0 || p.cacheMultiplier > MILLION {
        assert !SoundPrice(us[j].pricing, Lower(us[0].pricing.currency));
        return None;
      }
      if currency != [] && currency != c {
        assert !SoundPrice(us[j].pricing, Lower(us[0].pricing.currency));
        return None;
      }
      currency := c;
    }
    assert us[..|us|] == us;
    r := Some(currency);
  }

  /** Exactly the catalogues that pass: the first model of the alias has upstreams, all of them priced in
      `currency` with rates that are not negative and a multiplier of at most a million. */
  lemma {:induction false} ChecksAre(models: seq<Model>, alias: Str, m: nat, currency: Str)
    requires m < |models| && models[m].alias == alias && forall i :: 0 <= i < m ==> models[i].alias != alias
    ensures ModelCurrency(FirstModel(models, alias)) == Some(currency)
            <==> && models[m].upstreams != [] && currency != []
                 && forall k :: 0 <= k < |models[m].upstreams| ==>
                      var p := models[m].upstreams[k].pricing;
                      && Lower(p.currency) == currency && p.promptRate >= 0 && p.completionRate >= 0
                      && 0 <= p.cacheMultiplier <= 1_000_000
    decreases m
  {
    hide Lower;
    if m > 0 {
      ChecksAre(models[1..], alias, m - 1, currency);
    }
  }

  lemma {:induction false} UnknownAliasFails(models: seq<Model>, alias: Str)
    requires forall i :: 0 <= i < |models| ==> models[i].alias != alias
    ensures ModelCurrency(FirstModel(models, alias)) == None
  {
    if models != [] {
      UnknownAliasFails(models[1..], alias);
    }
  }

  /** The catalogue holds each alias at most once. */
  predicate UniqueAlias(models: seq<Model>, alias: Str) {
    forall i, j :: 0 <= i < j < |models| ==> !(models[i].alias == alias && models[j].alias == alias)
  }

  lemma {:induction false} NoOtherModel(models: seq<Model>, alias: Str, provider: Str)
    requires forall i :: 0 <= i < |models| ==> models[i].alias != alias
    ensures ResolveModel(models, alias, provider) == None
  {
    if models != [] {
      NoOtherModel(models[1..], alias, provider);
    }
  }

  lemma {:induction false} ResolvedInFirst(models: seq<Model>, alias: Str, provider: Str)
    requires UniqueAlias(models, alias) && ResolveModel(models, alias, provider).Some?
    ensures FirstModel(models, alias).Some?
    ensures FindUpstream(FirstModel(models, alias).value.upstreams, provider) == ResolveModel(models, alias, provider)
  {
    hide FindUpstream;
    if models[0].alias == alias {
      forall i | 0 <= i < |models[1..]| ensures models[1..][i].alias != alias {
        assert models[1..][i] == models[i + 1];
      }
      NoOtherModel(models[1..], alias, provider);
    } else {
      ResolvedInFirst(models[1..], alias, provider);
    }
  }

  /** What was checked before reserving is what settlement charges: every upstream the snapshot resolves
      has a sound price in the reservation's currency. */
  lemma ResolvedPriceIsSound(models: seq<Model>, alias: Str, provider: Str)
    requires UniqueAlias(models, alias) && ResolveModel(models, alias, provider).Some?
    requires ModelCurrency(FirstModel(models, alias)).Some?
    ensures SoundPrice(ResolveModel(models, alias, provider).value.pricing,
                       ModelCurrency(FirstModel(models, alias)).value)
  {
    hide ResolveModel, FirstModel, Lower;
    ResolvedInFirst(models, alias, provider);
    FoundAmong(FirstModel(models, alias).value.upstreams, provider);
  }

  lemma {:induction false} SnapshotAliasOnce(d: Dispatcher, alias: Str, protocol: Str, models: seq<Model>)
    requires UniqueAlias(models, alias)
    ensures |SnapshotModels(d, alias, protocol, models)| <= 1
    ensures (forall i :: 0 <= i < |models| ==> models[i].alias != alias) ==>
              SnapshotModels(d, alias, protocol, models) == []
  {
    hide KeepReachable;
    if models != [] {
      SnapshotAliasOnce(d, alias, protocol, models[..|models| - 1]);
    }
  }

  /** At the snapshot the plugin prices from: every provider the failover loop can reach and the catalogue
      serves has, in the full configuration, a sound price in the currency the reservation was made in. */
  lemma ReachablePriceIsSound(d: Dispatcher, alias: Str, protocol: Str, provider: Str)
    requires UniqueAlias(d.dyn.models, alias) && Reachable(d, alias, protocol, provider)
    requires ResolveModel(d.dyn.models, alias, provider).Some?
    requires ModelCurrency(FirstModel(Snapshot(d, alias, protocol).models, alias)).Some?
    ensures SoundPrice(ResolveModel(d.dyn.models, alias, provider).value.pricing,
                       ModelCurrency(FirstModel(Snapshot(d, alias, protocol).models, alias)).value)
  {
    hide ResolveModel, FirstModel, ModelCurrency, SoundPrice, SnapshotModels, KeyFor, RouteFor;
    SnapshotAliasOnce(d, alias, protocol, d.dyn.models);
    SnapshotPreservesPrices(d, alias, protocol, provider);
    ResolvedPriceIsSound(Snapshot(d, alias, protocol).models, alias, provider);
  }

  /** A catalogue whose only price is 100 micro-usd per million completion tokens. */
  const SMALL_RATE: Model := Model([109], [Upstream([112], [117], 0, Pricing(0, 100, [117, 115, 100], 0))])

  /** Its price passes the checks, and at the default ceiling a request is reserved as nothing. */
  lemma SmallRateReservesNothing()
    ensures MaxRate(SMALL_RATE.upstreams) == 100
    ensures ModelCurrency(FirstModel([SMALL_RATE], SMALL_RATE.alias)) == Some([117, 115, 100])
    ensures EstimateOf(AliasUpstreams([SMALL_RATE], SMALL_RATE.alias), None, Ceiling(0)) == 0
  {
    var us, models := SMALL_RATE.upstreams, [SMALL_RATE];
    assert us[..0] == [] && models[..0] == [];
    assert MaxRate(us[..0]) == 0 && MaxDefault(us[..0]) == 0;
    assert AliasUpstreams(models[..0], SMALL_RATE.alias) == [];
    assert AliasUpstreams(models, SMALL_RATE.alias) == us;
    var c: Str := [117, 115, 100];
    assert Lower(us[0].pricing.currency) == c;
  }

  // ---------------------------------------------------------------------------------------
  // Reserving
  // ---------------------------------------------------------------------------------------

  const UNAVAILABLE := 503
  const PAYMENT_REQUIRED := 402

  function RequestOf(caller: Caller, id: Str, currency: Str, estimate: int, prices: Str): Request {
    Request(id, caller.requestId, caller.tenant, caller.group, caller.key, caller.app, caller.env, currency, estimate,
            prices)
  }

  /** `reserve` in accounting mode. `newId` is the random id, absent when the source of randomness fails;
      `prices` is the serialized price snapshot. */
  method Reserve(c: Context, repo: Repo, dir: Directory, dyn: Dynamic, configured: int, newId: Option<Str>, prices: Str,
                 now: int)
    modifies c`snapshot, c`reserved, c`reservation, c`hooks, c`rejectStatus, repo
    ensures c.snapshot == Some(if old(c.snapshot).Some? then old(c.snapshot).value else dyn)
    ensures c.reserved
            == EstimateOf(AliasUpstreams(c.snapshot.value.models, c.caller.alias), c.caller.maxTokens,
                          Ceiling(configured))
    ensures var currency := ModelCurrency(FirstModel(c.snapshot.value.models, c.caller.alias));
            if c.reserved < 0 || currency.None? || newId.None? then
              && repo.tables == old(repo.tables) && c.rejectStatus == Some(503)
              && c.reservation == old(c.reservation) && c.hooks == old(c.hooks)
            else
              var req := RequestOf(c.caller, newId.value, currency.value, c.reserved, prices);
              var tx := ReserveTx(old(repo.tables), dir, req, now);
              && repo.tables == After(tx, old(repo.tables))
              && c.reservation == (if tx.Commit? then newId.value else old(c.reservation))
              && c.hooks == (if tx.Commit? then newId else old(c.hooks))
              && c.rejectStatus == (if tx.Commit? then old(c.rejectStatus)
                                    else Some(if tx.error == Insufficient then 402 else 503))
  {
    hide EstimateOf, AliasUpstreams, ModelCurrency, FirstModel, ReserveTx;
    if c.snapshot.None? {
      c.snapshot := Some(dyn);
    }
    var models := c.snapshot.value.models;
    var estimate := Estimate(models, c.caller.alias, c.caller.maxTokens, Ceiling(configured));
    c.reserved := estimate;
    if c.reserved < 0 {
      c.rejectStatus := Some(UNAVAILABLE);
      return;
    }
    var currency := CheckPrices(models, c.caller.alias);
    if currency.None? || newId.None? {
      c.rejectStatus := Some(UNAVAILABLE);
      return;
    }
    var err := repo.Reserve(dir, RequestOf(c.caller, newId.value, currency.value, c.reserved, prices), now);
    if err.Some? {
      c.rejectStatus := Some(if err.value == Insufficient then PAYMENT_REQUIRED else UNAVAILABLE);
      return;
    }
    c.reservation := newId.value;
    c.hooks := Some(newId.value);
  }

  // ---------------------------------------------------------------------------------------
  // Settling
  // ---------------------------------------------------------------------------------------

  /** "upstream usage or final charge is not confirmed" */
  const UNCONFIRMED: Str := [
    117, 112, 115, 116, 114, 101, 97, 109, 32, 117, 115, 97, 103, 101, 32, 111, 114, 32, 102, 105, 110, 97, 108, 32,
    99, 104, 97, 114, 103, 101, 32, 105, 115, 32, 110, 111, 116, 32, 99, 111, 110, 102, 105, 114, 109, 101, 100]

  /** `usageRecord`. */
  function RecordOf(caller: Caller, hit: EndpointKey, u: Usage, p: Pricing, actual: int): UsageRecord {
    var discount := if u.cached > 0 then Max(Wrap64(FullCost(u, p) - actual), 0) else 0;
    UsageRecord(hit.provider, hit.endpoint, Lower(p.currency), caller.requestId,
                u.prompt, u.completion, u.cached, actual, discount)
  }

  /** The charge when usage and price are both there and the checked arithmetic accepts them. */
  function Charge(usage: Option<Usage>, price: Option<Pricing>): Option<int> {
    if usage.Some? && price.Some? then CheckedCost(usage, price.value) else None
  }

  /** What `settle` sends to the store. */
  function SettlementOf(id: Str, caller: Caller, f: Flags, usage: Option<Usage>, hit: EndpointKey,
                        price: Option<Pricing>)
    : Settlement
  {
    if !f.chargePossible && usage.None? then Settlement(id, NoCharge, 0, [], false, None)
    else if f.uncertain || Charge(usage, price).None? then Settlement(id, Uncertain, 0, UNCONFIRMED, false, None)
    else
      var actual := Charge(usage, price).value;
      Settlement(id, Known, actual, [], f.attemptRisk, Some(RecordOf(caller, hit, usage.value, price.value, actual)))
  }

  function PriceOf(models: seq<Model>, alias: Str, provider: Str): Option<Pricing> {
    var u := ResolveModel(models, alias, provider);
    if u.Some? then Some(u.value.pricing) else None
  }

  /** `settle` notes a failed cost computation as uncertainty. */
  function FlagsAfter(f: Flags, usage: Option<Usage>, price: Option<Pricing>): Flags {
    if usage.Some? && price.Some? && Charge(usage, price).None? then f.(uncertain := true) else f
  }

  /** `pricingFor`. */
  function HitPrice(c: Context, dyn: Dynamic): Option<Pricing>
    reads c
  {
    var models := if c.snapshot.Some? then c.snapshot.value.models else dyn.models;
    PriceOf(models, c.caller.alias, c.hit.provider)
  }

  /** The settlement a context stands for. */
  function Due(c: Context, dyn: Dynamic): Settlement
    reads c
  {
    SettlementOf(c.reservation, c.caller, c.flags, c.usage, c.hit, HitPrice(c, dyn))
  }

  /** `settle` in accounting mode. Whatever it writes to the context, the settlement due stays the same,
      so the deferred finalizer repeats an equal one. */
  method Settle(c: Context, repo: Repo, dir: Directory, dyn: Dynamic, now: int) returns (err: Option<Error>)
    modifies c`flags, c`done, repo
    ensures Due(c, dyn) == old(Due(c, dyn))
    ensures c.flags == if old(c.done) then old(c.flags) else FlagsAfter(old(c.flags), c.usage, HitPrice(c, dyn))
    ensures c.flags == old(c.flags).(uncertain := c.flags.uncertain)
    ensures c.flags.uncertain
            <==> || old(c.flags).uncertain
                 || (!old(c.done) && c.usage.Some? && HitPrice(c, dyn).Some?
                     && CheckedCost(c.usage, HitPrice(c, dyn).value).None?)
    ensures old(c.done) || c.reservation == [] ==>
              repo.tables == old(repo.tables) && err == None && c.done == old(c.done)
    ensures !old(c.done) && c.reservation != [] ==>
              (repo.tables, err) == Finished(old(repo.tables), dir, Due(c, dyn), now) && c.done == err.None?
  {
    hide Finished, CheckedCost, RecordOf, ResolveModel;
    err := None;
    if c.done {
      return;
    }
    var usage, price := c.usage, HitPrice(c, dyn);
    var actual := 0;
    if usage.Some? && price.Some? {
      var cost := ComputeCheckedCost(usage, price.value);
      if cost.None? {
        c.flags := c.flags.(uncertain := true);
      } else {
        actual := cost.value;
      }
    }
    if c.reservation == [] {
      return;
    }
    var outcome, reason := Known, [];
    if !c.flags.chargePossible && usage.None? {
      outcome := NoCharge;
    } else if c.flags.uncertain || usage.None? || price.None? || actual < 0 {
      outcome, reason := Uncertain, UNCONFIRMED;
    }
    var record: Option<UsageRecord> := None;
    if outcome == Known && usage.Some? && price.Some? {
      record := Some(RecordOf(c.caller, c.hit, usage.value, price.value, actual));
    }
    if outcome != Known {
      actual := 0;
    }
    var s := Settlement(c.reservation, outcome, actual, reason, outcome == Known && c.flags.attemptRisk, record);
    assert s == Due(c, dyn);
    err := repo.Finish(dir, s, now);
    if err.Some? {
      return;
    }
    c.done := true;
  }

  // ---------------------------------------------------------------------------------------
  // Classification of attempt sequences
  // ---------------------------------------------------------------------------------------

  /** The endpoint `runPost` attributes the request to. */
  function HitOf(r: DispatchResult): EndpointKey {
    if r.key.Some? then r.key.value else EndpointKey([], [])
  }

  /** A call that cannot have cost anything: never sent, or refused with a response that could be read. */
  predicate NeverCharged(a: Attempt) {
    a == BuildFailure || a == Rejected(true)
  }

  lemma {:induction false} NoteRetryable(f: Flags, tries: seq<Try>)
    requires forall j :: 0 <= j < |tries| ==> tries[j].reply == ServerError || tries[j].reply == Timeout
    ensures NoteAll(f, tries) == if tries == [] then f else Flags(true, true, f.attemptRisk)
    decreases |tries|
  {
    if tries != [] {
      NoteRetryable(Note(f, tries[0].reply), tries[1..]);
    }
  }

  lemma {:induction false} NoteLast(f: Flags, tries: seq<Try>, t: Try)
    ensures NoteAll(f, tries + [t]) == Note(NoteAll(f, tries), t.reply)
    decreases |tries|
  {
    if tries == [] {
      assert [t][1..] == [];
      assert NoteAll(f, [t]) == NoteAll(Note(f, t.reply), [t][1..]);
    } else {
      assert (tries + [t])[1..] == tries[1..] + [t];
      NoteLast(Note(f, tries[0].reply), tries[1..], t);
    }
  }

  /** The flags of any course, from its last call. */
  lemma CourseFlags(d: Dispatcher, alias: Str, keys: seq<EndpointKey>, c: Course)
    requires Shaped(d, alias, keys, 0, c)
    ensures var n := |c.tries|;
            NoteAll(CLEAR, c.tries)
            == if n == 0 then CLEAR
               else if c.tries[n - 1].reply.Success? then Flags(true, false, n > 1)
               else if NeverCharged(c.tries[n - 1].reply) && n == 1 then CLEAR
               else Flags(true, true, false)
  {
    hide Eligible;
    if c.tries != [] {
      var n := |c.tries| - 1;
      NoteRetryable(CLEAR, c.tries[..n]);
      NoteLast(CLEAR, c.tries[..n], c.tries[n]);
      assert c.tries == c.tries[..n] + [c.tries[n]];
    }
  }

  /** The charge of a course that ended in a priced answer with usage, at the full configuration's price. */
  function CourseCharge(d: Dispatcher, alias: Str, c: Course): Option<int> {
    if c.tries == [] || !c.tries[|c.tries| - 1].reply.Success? then None
    else
      var last := c.tries[|c.tries| - 1];
      var u := ResolveModel(d.dyn.models, alias, last.key.provider);
      if last.reply.usage.None? || u.None? then None else CheckedCost(last.reply.usage, u.value.pricing)
  }

  /** The usage row of a charged call: its endpoint, currency, token counts and cost, and as discount what
      the cache saved against full price, nothing without cached tokens. */
  ghost predicate Receipts(d: Dispatcher, caller: Caller, t: Try, charge: int, r: UsageRecord) {
    && t.reply.Success? && t.reply.usage.Some?
    && var u, price := t.reply.usage.value, PriceOf(d.dyn.models, caller.alias, t.key.provider);
       && price.Some?
       && r.provider == t.key.provider && r.endpoint == t.key.endpoint && r.requestId == caller.requestId
       && r.currency == Lower(price.value.currency)
       && r.prompt == u.prompt && r.completion == u.completion && r.cached == u.cached && r.cost == charge
       && (u.cached <= 0 ==> r.discount == 0)
       && r.discount >= 0
       && (u.cached > 0 && 0 <= FullCost(u, price.value) - charge <= MAX_INT64 ==>
             r.discount == FullCost(u, price.value) - charge)
  }

  /** Every run of the failover loop settles as exactly one of three outcomes: released iff no call was
      made other than one that certainly cost nothing; known iff the last call succeeded with usage that
      the hit provider's configured price turns into a charge; unknown otherwise. The charge and the risk
      flag follow from the calls alone. */
  lemma Classification(d: Dispatcher, names: seq<Str>, protocol: Str, w: World, caller: Caller, id: Str)
    requires forall i :: 0 <= i < |names| ==> OnRoute(RouteFor(d, caller.alias), names[i])
    ensures var keys := Keys(d, names, protocol);
            var c := CourseFrom(d, caller.alias, keys, w, 0);
            var r := ResultOf(d, caller.alias, keys, w, c);
            var price := PriceOf(Snapshot(d, caller.alias, protocol).models, caller.alias, HitOf(r).provider);
            var s := SettlementOf(id, caller, NoteAll(CLEAR, c.tries), r.usage, HitOf(r), price);
            var charge := CourseCharge(d, caller.alias, c);
            && (s.outcome == NoCharge <==> forall j :: 0 <= j < |c.tries| ==> NeverCharged(c.tries[j].reply))
            && (s.outcome == Known <==> charge.Some?)
            && (charge.Some? ==> s.actual == charge.value)
            && (s.attemptRisk <==> charge.Some? && |c.tries| > 1)
            && (s.usage.Some? <==> charge.Some?)
            && (s.usage.Some? ==> Receipts(d, caller, c.tries[|c.tries| - 1], s.actual, s.usage.value))
  {
    hide CourseFrom, ResolveModel, Snapshot, NoteAll, OnRoute, RouteFor, Keys, CheckedCost, Eligible, ExhaustedFailure;
    var keys := Keys(d, names, protocol);
    var c := CourseFrom(d, caller.alias, keys, w, 0);
    CourseShape(d, caller.alias, keys, w, 0);
    CourseFlags(d, caller.alias, keys, c);
    if c.tries != [] {
      var n := |c.tries| - 1;
      AttemptsArePriced(d, caller.alias, names, protocol, w, n);
      if n > 0 {
        assert c.tries[0].reply == ServerError || c.tries[0].reply == Timeout;
      }
    }
  }

  /** A settlement of a course is always one that `Finish` accepts as well formed. */
  lemma SettlementIsValid(id: Str, caller: Caller, f: Flags, usage: Option<Usage>, hit: EndpointKey,
                          price: Option<Pricing>)
    requires id != []
    ensures ValidSettlement(SettlementOf(id, caller, f, usage, hit, price))
  {
    hide RecordOf;
    if Charge(usage, price).Some? {
      ProductsNonNegative(usage.value, price.value);
    }
  }

  /** Whatever provider ends up answering, its charge for completion within the effective maximum is
      covered by the estimate made on the snapshot before dispatch. */
  lemma HitIsCovered(d: Dispatcher, alias: Str, names: seq<Str>, protocol: Str, w: World, j: nat,
                     maxTokens: Option<int>, ceiling: int, tokens: int)
    requires forall i :: 0 <= i < |names| ==> OnRoute(RouteFor(d, alias), names[i])
    requires j < |CourseFrom(d, alias, Keys(d, names, protocol), w, 0).tries|
    requires var us := AliasUpstreams(Snapshot(d, alias, protocol).models, alias);
             EstimateOf(us, maxTokens, ceiling) >= 0 && 0 <= tokens <= EffectiveTokens(us, maxTokens, ceiling)
    ensures var price := PriceOf(d.dyn.models, alias,
                                 CourseFrom(d, alias, Keys(d, names, protocol), w, 0).tries[j].key.provider);
            price.Some?
            && (ValidCharge(Usage(0, tokens, 0), price.value) ==>
                  var charge := CheckedCost(Some(Usage(0, tokens, 0)), price.value);
                  charge.Some?
                  && charge.value <= EstimateOf(AliasUpstreams(Snapshot(d, alias, protocol).models, alias), maxTokens,
                                                ceiling))
  {
    hide CourseFrom, ResolveModel, Snapshot, OnRoute, RouteFor, Keys, CheckedCost, EstimateOf, EffectiveTokens,
         AliasUpstreams;
    AttemptsArePriced(d, alias, names, protocol, w, j);
    var models := Snapshot(d, alias, protocol).models;
    var provider := CourseFrom(d, alias, Keys(d, names, protocol), w, 0).tries[j].key.provider;
    if ValidCharge(Usage(0, tokens, 0), ResolveModel(models, alias, provider).value.pricing) {
      EstimateCovers(models, alias, provider, maxTokens, ceiling, tokens);
    }
  }
}
