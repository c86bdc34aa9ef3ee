/**
 Billing without the accounting coordinator (`internal/billing/plugin.go`): debit the estimate, then
 settle the difference to the actual cost, both on the quota balances alone.
 */
module LegacyBilling {
  import opened Text
  import opened Cost
  import opened Dispatch
  import opened Billing
  import opened QuotaStore

  datatype Billed = Refused | Settled | SettleFailed

  /** The request as the plugin sees it: the price snapshot, the caller's limits and what came back. */
  datatype Exchange = Exchange(
    models: seq<Model>, alias: Str, maxTokens: Option<int>, ceiling: int, provider: Str, usage: Option<Usage>)

  function Estimated(x: Exchange): int {
    EstimateOf(AliasUpstreams(x.models, x.alias), x.maxTokens, x.ceiling)
  }

  /** The int64 cost at the hit provider's price; nothing without usage or price. */
  function ActualCost(x: Exchange): int {
    var price := PriceOf(x.models, x.alias, x.provider);
    if x.usage.Some? && price.Some? then Cost.Cost(x.usage.value, price.value) else 0
  }

  /** The balances after the debit and after the settlement that follows it. */
  function Debited(balances: Balances, scopes: seq<Str>, x: Exchange): Balances {
    if Estimated(x) > 0 then Moved(balances, scopes, -Estimated(x)) else balances
  }

  function Charged(balances: Balances, scopes: seq<Str>, x: Exchange): Balances {
    Moved(Debited(balances, scopes, x), scopes, Wrap64(Estimated(x) - ActualCost(x)))
  }

  /** `reserve` before the upstream call and `settle` after it, with nothing in between. */
  method Bill(repo: QuotaRepo, scopes: seq<Str>, x: Exchange) returns (r: Billed)
    modifies repo
    ensures r == Refused <==> Estimated(x) > 0 && !Sufficient(old(repo.balances), scopes, Estimated(x))
    ensures r == Refused ==> repo.balances == old(repo.balances)
    ensures r == Settled ==> repo.balances == Charged(old(repo.balances), scopes, x)
    ensures r == Settled && Estimable(x) && Fits64(Estimated(x) - ActualCost(x)) ==>
              forall s :: s in old(repo.balances) ==>
                s in repo.balances
                && repo.balances[s] == old(repo.balances)[s] - if s in scopes then ActualCost(x) else 0
    ensures r == SettleFailed ==>
              && repo.balances == Debited(old(repo.balances), scopes, x)
              && !InRange(repo.balances, scopes, Wrap64(Estimated(x) - ActualCost(x)))
  {
    hide EstimateOf, AliasUpstreams, Moved, Sufficient, InRange, Cost.Cost, ResolveModel, Estimable;
    var reserved := Estimate(x.models, x.alias, x.maxTokens, x.ceiling);
    var ok := repo.TryDebit(scopes, reserved);
    if !ok {
      return Refused;
    }
    var actual := 0;
    var price := PriceOf(x.models, x.alias, x.provider);
    if x.usage.Some? && price.Some? {
      actual := Cost.Cost(x.usage.value, price.value);
    }
    var delta := Wrap64(reserved - actual);
    if delta != 0 {
      ok := repo.Settle(scopes, delta);
      if !ok {
        return SettleFailed;
      }
    } else {
      MovedNone(repo.balances, scopes, delta);
    }
    r := Settled;
    SettledCharge(old(repo.balances), scopes, x);
  }

  lemma SettledCharge(balances: Balances, scopes: seq<Str>, x: Exchange)
    ensures Estimable(x) && Fits64(Estimated(x) - ActualCost(x)) ==>
              forall s :: s in balances ==>
                s in Charged(balances, scopes, x)
                && Charged(balances, scopes, x)[s] == balances[s] - if s in scopes then ActualCost(x) else 0
  {
    hide Estimable, EstimateOf, ActualCost, Charged, Moved;
    NetMove(balances, scopes, x);
    EstimableExact(x);
    MovedAt(balances, scopes, -ActualCost(x));
  }

  /** The estimate is the -1 of a refusal exactly when the token count is negative or the product does not
      fit in 64 bits. */
  predicate Estimable(x: Exchange) {
    var us := AliasUpstreams(x.models, x.alias);
    var tokens := EffectiveTokens(us, x.maxTokens, x.ceiling);
    tokens >= 0 && tokens * MaxRate(us) + HALF <= MAX_INT64
  }

  lemma EstimableExact(x: Exchange)
    ensures if Estimable(x) then Estimated(x) >= 0 else Estimated(x) == -1
  {
    hide MaxRate, EffectiveTokens, AliasUpstreams;
    var us := AliasUpstreams(x.models, x.alias);
    MaxRateNonNegative(us);
    var tokens := EffectiveTokens(us, x.maxTokens, x.ceiling);
    if tokens >= 0 {
      ProductBound(tokens, MaxRate(us), tokens, MaxRate(us));
    }
  }

  lemma NetMove(balances: Balances, scopes: seq<Str>, x: Exchange)
    ensures Charged(balances, scopes, x)
            == Moved(balances, scopes,
                     Wrap64(Estimated(x) - ActualCost(x)) - if Estimated(x) > 0 then Estimated(x) else 0)
  {
    hide EstimateOf, ActualCost, Wrap64;
  }

  lemma WrapMovesByRounds(v: int)
    ensures exists k :: Wrap64(v) == v + k * 0x1_0000_0000_0000_0000
    ensures Wrap64(v) == v <==> Fits64(v)
  {
    var m := 0x1_0000_0000_0000_0000;
    var q := (v + 0x8000_0000_0000_0000) / m;
    assert Wrap64(v) == v + (-q) * m;
  }

  /** A settled request costs every configured scope exactly its actual charge, whatever was reserved, if
      and only if the request was estimable and the difference to settle fits in 64 bits. */
  lemma ChargeIsExact(balances: Balances, scopes: seq<Str>, x: Exchange)
    requires exists s :: s in scopes && s in balances
    ensures Charged(balances, scopes, x) == Moved(balances, scopes, -ActualCost(x))
            <==> Estimable(x) && Fits64(Estimated(x) - ActualCost(x))
  {
    hide Estimable, EstimateOf, ActualCost, Wrap64, Charged;
    EstimableExact(x);
    NetMove(balances, scopes, x);
    WrapMovesByRounds(Estimated(x) - ActualCost(x));
    var est, actual := Estimated(x), ActualCost(x);
    var k :| Wrap64(est - actual) == est - actual + k * 0x1_0000_0000_0000_0000;
    var s :| s in scopes && s in balances;
    assert Moved(balances, scopes, -actual)[s] == balances[s] - actual;
    if !Estimable(x) {
      assert Charged(balances, scopes, x)[s] == balances[s] + Wrap64(est - actual);
      assert -1 + k * 0x1_0000_0000_0000_0000 != 0;
    } else {
      assert Charged(balances, scopes, x)[s] == balances[s] + Wrap64(est - actual) - est;
    }
  }

  /** A charge that is not negative always leaves a difference that fits. */
  lemma EstimableIsExact(balances: Balances, scopes: seq<Str>, x: Exchange)
    requires (exists s :: s in scopes && s in balances) && ActualCost(x) >= 0
    ensures Charged(balances, scopes, x) == Moved(balances, scopes, -ActualCost(x)) <==> Estimable(x)
  {
    hide Charged, Moved, AliasUpstreams, EffectiveTokens, MaxRate, Cost.Cost, ResolveModel, Estimable;
    ChargeIsExact(balances, scopes, x);
    EstimableExact(x);
    CostFits(x);
    EstimateFits(x);
  }

  lemma CostFits(x: Exchange)
    ensures Fits64(ActualCost(x))
  {
    hide ResolveModel;
  }

  lemma EstimateFits(x: Exchange)
    ensures -1 <= Estimated(x) <= MAX_INT64
  {
    hide MaxRate, EffectiveTokens, AliasUpstreams;
    EstimableExact(x);
  }

  /** A model at 5 usd per million completion tokens, and a request that asks for -1 tokens. The provider
      refuses it, so its actual cost is nothing. */
  function NegativeRequest(): Exchange {
    Exchange([Model([109], [Upstream([112], [117], 0, Pricing(0, 5_000_000, [117, 115, 100], 0))])],
             [109], Some(-1), DEFAULT_CEILING, [112], None)
  }

  /** Such a request passes an empty quota and is charged one micro-unit for nothing. */
  lemma NegativeTokensOvercharge()
    ensures var scope: Str := [107];
            && !Estimable(NegativeRequest()) && ActualCost(NegativeRequest()) == 0 && Estimated(NegativeRequest()) == -1
            && Charged(map[scope := 0], [scope], NegativeRequest()) == map[scope := -1]
  {
    EstimableExact(NegativeRequest());
  }

  /** The same model asked for the largest token count: the product overflows. */
  lemma OverflowingTokensOvercharge()
    ensures var scope: Str := [107];
            var x := NegativeRequest().(maxTokens := Some(MAX_INT64));
            !Estimable(x) && Charged(map[scope := 0], [scope], x) == map[scope := -1]
  {
    var x := NegativeRequest().(maxTokens := Some(MAX_INT64));
    var us := x.models[0].upstreams;
    assert x.models[..0] == [] && us[..0] == [];
    assert AliasUpstreams(x.models[..0], x.alias) == [] && MaxRate(us[..0]) == 0;
    assert AliasUpstreams(x.models, x.alias) == us && MaxRate(us) == 5_000_000;
    EstimableExact(x);
  }
}
