/**
 Request cost (`internal/billing/cost.go`): the int64 form, the big-integer form and the
 exact amount they both round.
 */
module Cost {
  import opened Text

  const MILLION := 1_000_000
  const HALF := 500_000

  /** Provider-reported token counts; Go `int`, so any value can arrive. */
  datatype Usage = Usage(prompt: int, completion: int, cached: int)

  /** Rates in micro-units per million tokens; `cacheMultiplier` 0 means full price. */
  datatype Pricing = Pricing(promptRate: int, completionRate: int, currency: Str, cacheMultiplier: int)

  /** Go's integer division truncates toward zero. */
  function Quo(a: int, b: int): int
    requires b > 0
  {
    if a >= 0 then a / b else -((-a) / b)
  }

  function Multiplier(p: Pricing): int {
    if p.cacheMultiplier == 0 then MILLION else p.cacheMultiplier
  }

  function CachedTokens(u: Usage): int {
    var c := if u.cached > u.prompt then u.prompt else u.cached;
    if c < 0 then 0 else c
  }

  /** `Cost`: every operation wraps at 64 bits. */
  function Cost(u: Usage, p: Pricing): int {
    var cached := CachedTokens(u);
    var nonCached := Wrap64(u.prompt - cached);
    var cachedRate := Quo(Wrap64(Wrap64(p.promptRate * Multiplier(p)) + HALF), MILLION);
    var micros := Wrap64(Wrap64(Wrap64(nonCached * p.promptRate) + Wrap64(cached * cachedRate))
                         + Wrap64(u.completion * p.completionRate));
    Quo(Wrap64(micros + HALF), MILLION)
  }

  /** `FullCost`: no cache discount. */
  function FullCost(u: Usage, p: Pricing): int {
    var micros := Wrap64(Wrap64(u.prompt * p.promptRate) + Wrap64(u.completion * p.completionRate));
    Quo(Wrap64(micros + HALF), MILLION)
  }

  predicate ValidCharge(u: Usage, p: Pricing) {
    && 0 <= u.prompt && 0 <= u.completion && 0 <= u.cached
    && 0 <= p.promptRate && 0 <= p.completionRate
    && 0 <= p.cacheMultiplier <= MILLION
  }

  /** Rounded rate for a cached prompt token, without overflow. */
  function CachedRate(p: Pricing): int {
    Quo(p.promptRate * Multiplier(p) + HALF, MILLION)
  }

  /** Micro-units before the final rounding, without overflow. */
  function Micros(u: Usage, p: Pricing): int {
    (u.prompt - CachedTokens(u)) * p.promptRate + CachedTokens(u) * CachedRate(p) + u.completion * p.completionRate
  }

  /** `checkedCost`; `None` is the error return. */
  function CheckedCost(u: Option<Usage>, p: Pricing): Option<int> {
    if u.None? || !ValidCharge(u.value, p) then None
    else
      var amount := Quo(Micros(u.value, p) + HALF, MILLION);
      if Fits64(amount) then Some(amount) else None
  }

  /** `checkedCost` on mutable big-integer accumulators. */
  method ComputeCheckedCost(u: Option<Usage>, p: Pricing) returns (r: Option<int>)
    ensures r == CheckedCost(u, p)
    ensures r.Some? ==> 0 <= r.value <= MAX_INT64
  {
    if u.None? || u.value.prompt < 0 || u.value.completion < 0 || u.value.cached < 0
       || p.promptRate < 0 || p.completionRate < 0 || p.cacheMultiplier < 0 || p.cacheMultiplier > MILLION {
      return None;
    }
    var mul := p.cacheMultiplier;
    if mul == 0 {
      mul := MILLION;
    }
    var usage := u.value;
    var cached := if usage.cached < usage.prompt then usage.cached else usage.prompt;
    var cachedRate := p.promptRate * mul;
    cachedRate := cachedRate + HALF;
    cachedRate := Quo(cachedRate, MILLION);
    var amount := (usage.prompt - cached) * p.promptRate;
    amount := amount + cached * cachedRate;
    amount := amount + usage.completion * p.completionRate;
    ProductsNonNegative(usage, p);
    amount := amount + HALF;
    amount := Quo(amount, MILLION);
    if !Fits64(amount) {
      return None;
    }
    r := Some(amount);
  }

  // ---------------------------------------------------------------------------------------
  // Laws
  // ---------------------------------------------------------------------------------------

  lemma ProductBound(a: int, b: int, x: int, y: int)
    requires 0 <= a <= x && 0 <= b <= y
    ensures 0 <= a * b <= x * y
  {
    assert a * b <= x * b;
    assert x * b <= x * y;
  }

  lemma RateNonNegative(p: Pricing)
    requires 0 <= p.promptRate && 0 <= p.cacheMultiplier
    ensures 0 <= CachedRate(p)
  {
    ProductBound(p.promptRate, Multiplier(p), p.promptRate, Multiplier(p));
  }

  lemma ProductsNonNegative(u: Usage, p: Pricing)
    requires ValidCharge(u, p)
    ensures 0 <= (u.prompt - CachedTokens(u)) * p.promptRate
    ensures 0 <= CachedTokens(u) * CachedRate(p)
    ensures 0 <= u.completion * p.completionRate
    ensures 0 <= Micros(u, p)
  {
    RateNonNegative(p);
    var c := CachedTokens(u);
    ProductBound(u.prompt - c, p.promptRate, u.prompt - c, p.promptRate);
    ProductBound(c, CachedRate(p), c, CachedRate(p));
    ProductBound(u.completion, p.completionRate, u.completion, p.completionRate);
  }

  /** No intermediate of the int64 form leaves the 64-bit range. */
  predicate NoOverflow(u: Usage, p: Pricing) {
    p.promptRate * Multiplier(p) + HALF <= MAX_INT64 && u.prompt <= MAX_INT64 && Micros(u, p) + HALF <= MAX_INT64
  }

  /** The int64 form is the big-integer form whenever its two totals fit in 64 bits. */
  lemma CostRefinesChecked(u: Usage, p: Pricing)
    requires ValidCharge(u, p) && NoOverflow(u, p)
    ensures CheckedCost(Some(u), p) == Some(Cost(u, p))
    ensures 0 <= Cost(u, p)
  {
    ProductsNonNegative(u, p);
    ProductBound(p.promptRate, Multiplier(p), p.promptRate, Multiplier(p));
    var c := CachedTokens(u);
    var a, b, d := (u.prompt - c) * p.promptRate, c * CachedRate(p), u.completion * p.completionRate;
    assert Micros(u, p) == a + b + d;
    assert Wrap64(a) == a && Wrap64(b) == b && Wrap64(d) == d;
    assert Wrap64(a + b) == a + b && Wrap64(a + b + d) == a + b + d;
  }

  /** The bounds stated beside `Cost`: a million tokens of each kind, rates up to ten million. */
  predicate DocumentedBounds(u: Usage, p: Pricing) {
    u.prompt <= MILLION && u.completion <= MILLION && p.promptRate <= 10 * MILLION && p.completionRate <= 10 * MILLION
  }

  lemma CachedRateBelowFull(p: Pricing)
    requires 0 <= p.promptRate && 0 <= p.cacheMultiplier <= MILLION
    ensures CachedRate(p) <= p.promptRate
  {
    ProductBound(p.promptRate, Multiplier(p), p.promptRate, MILLION);
    assert p.promptRate * Multiplier(p) + HALF <= p.promptRate * MILLION + HALF;
  }

  lemma DocumentedBoundsSuffice(u: Usage, p: Pricing)
    requires ValidCharge(u, p) && DocumentedBounds(u, p)
    ensures CheckedCost(Some(u), p) == Some(Cost(u, p))
    ensures 0 <= Cost(u, p) <= 20 * MILLION
  {
    var c := CachedTokens(u);
    RateNonNegative(p);
    CachedRateBelowFull(p);
    ProductBound(p.promptRate, Multiplier(p), 10 * MILLION, MILLION);
    ProductBound(u.completion, p.completionRate, MILLION, 10 * MILLION);
    ProductBound(c, CachedRate(p), c, p.promptRate);
    ProductBound(u.prompt, p.promptRate, MILLION, 10 * MILLION);
    assert Micros(u, p) <= (u.prompt - c) * p.promptRate + c * p.promptRate + u.completion * p.completionRate;
    assert (u.prompt - c) * p.promptRate + c * p.promptRate == u.prompt * p.promptRate;
    ProductsNonNegative(u, p);
    CostRefinesChecked(u, p);
  }

  /** The reported cache discount `FullCost - Cost` is never negative. */
  lemma DiscountNonNegative(u: Usage, p: Pricing)
    requires ValidCharge(u, p)
    requires p.promptRate * MILLION + HALF <= MAX_INT64
    requires u.prompt * p.promptRate + u.completion * p.completionRate + HALF <= MAX_INT64
    requires u.prompt <= MAX_INT64
    ensures Cost(u, p) <= FullCost(u, p)
  {
    var c := CachedTokens(u);
    RateNonNegative(p);
    CachedRateBelowFull(p);
    ProductBound(c, CachedRate(p), c, p.promptRate);
    ProductBound(p.promptRate, Multiplier(p), p.promptRate, MILLION);
    assert (u.prompt - c) * p.promptRate + c * p.promptRate == u.prompt * p.promptRate;
    ProductsNonNegative(u, p);
    ProductBound(u.prompt, p.promptRate, u.prompt, p.promptRate);
    CostRefinesChecked(u, p);
  }

  /** 10^12 times the exact cost, from the fields alone: cached tokens, never more than the prompt's, at
      the multiplier, 0 meaning full price; the cached rate and the total left unrounded. */
  function ExactScaled(u: Usage, p: Pricing): int {
    var c := if u.cached < u.prompt then u.cached else u.prompt;
    var cachedPrice := if p.cacheMultiplier == 0 then p.promptRate * 1_000_000 else p.promptRate * p.cacheMultiplier;
    ((u.prompt - c) * p.promptRate + u.completion * p.completionRate) * 1_000_000 + c * cachedPrice
  }

  lemma RoundHalfUp(x: int)
    requires 0 <= x
    ensures -HALF <= Quo(x + HALF, MILLION) * MILLION - x <= HALF
  {
  }

  lemma ScaleError(c: int, e: int)
    requires 0 <= c && -HALF <= e <= HALF
    ensures -(HALF * c) <= c * e <= HALF * c
  {
    ProductBound(c, HALF - e, c, HALF - e);
    ProductBound(c, HALF + e, c, HALF + e);
    assert c * (HALF - e) == HALF * c - c * e;
    assert c * (HALF + e) == HALF * c + c * e;
  }

  lemma RoundingArithmetic(cost: int, full: int, c: int, rate: int, exactRate: int)
    requires 0 <= c && -HALF <= cost * MILLION - (full + c * rate) <= HALF
             && -HALF <= rate * MILLION - exactRate <= HALF
    ensures var err := cost * MILLION * MILLION - (full * MILLION + c * exactRate);
            -(HALF * (MILLION + c)) <= err <= HALF * (MILLION + c)
  {
    var rounding, scaled := cost * MILLION - (full + c * rate), rate * MILLION - exactRate;
    ScaleError(c, scaled);
    assert c * scaled == c * rate * MILLION - c * exactRate;
    assert cost * MILLION * MILLION - (full * MILLION + c * exactRate) == rounding * MILLION + c * scaled;
  }

  /** Two-stage rounding moves the cost by at most half a unit plus half a micro-unit rate per cached token. */
  lemma RoundingError(u: Usage, p: Pricing)
    requires ValidCharge(u, p) && CheckedCost(Some(u), p).Some?
    ensures var err := CheckedCost(Some(u), p).value * MILLION * MILLION - ExactScaled(u, p);
            -(HALF * (MILLION + CachedTokens(u))) <= err <= HALF * (MILLION + CachedTokens(u))
  {
    var c, full := CachedTokens(u), (u.prompt - CachedTokens(u)) * p.promptRate + u.completion * p.completionRate;
    ProductsNonNegative(u, p);
    RoundHalfUp(Micros(u, p));
    ProductBound(p.promptRate, Multiplier(p), p.promptRate, Multiplier(p));
    RoundHalfUp(p.promptRate * Multiplier(p));
    assert p.promptRate * Multiplier(p)
        == if p.cacheMultiplier == 0 then p.promptRate * 1_000_000 else p.promptRate * p.cacheMultiplier;
    RoundingArithmetic(CheckedCost(Some(u), p).value, full, c, CachedRate(p), p.promptRate * Multiplier(p));
  }

  /** What `checkedCost` is, from the fields alone: with `rate` the cached rate rounded half up and `v` the
      total rounded half up, it is `v`, and an error exactly for a negative count or rate, a multiplier
      above a million or a total beyond 64 bits. */
  lemma CheckedCostFromFields(u: Usage, p: Pricing, rate: int, v: int)
    requires var mul := if p.cacheMultiplier == 0 then 1_000_000 else p.cacheMultiplier;
             rate * 1_000_000 <= p.promptRate * mul + 500_000 < rate * 1_000_000 + 1_000_000
    requires var c := if u.cached < u.prompt then u.cached else u.prompt;
             var total := (u.prompt - c) * p.promptRate + c * rate + u.completion * p.completionRate;
             v * 1_000_000 <= total + 500_000 < v * 1_000_000 + 1_000_000
    ensures CheckedCost(Some(u), p)
            == if u.prompt < 0 || u.completion < 0 || u.cached < 0 || p.promptRate < 0 || p.completionRate < 0
                  || p.cacheMultiplier < 0 || p.cacheMultiplier > 1_000_000 || v > 0x7fff_ffff_ffff_ffff
               then None else Some(v)
  {
    if ValidCharge(u, p) {
      ProductBound(p.promptRate, Multiplier(p), p.promptRate, Multiplier(p));
      FloorIs(p.promptRate * Multiplier(p) + HALF, rate);
      ProductsNonNegative(u, p);
      FloorIs(Micros(u, p) + HALF, v);
    }
  }

  lemma FloorIs(x: int, q: int)
    requires q * MILLION <= x < q * MILLION + MILLION && x >= 0
    ensures Quo(x, MILLION) == q
  {
  }

  /** Without a multiplier, or at a million, cached tokens cost full price: the charge is the undiscounted
      one. */
  lemma FullPriceWithoutDiscount(u: Usage, p: Pricing)
    requires ValidCharge(u, p) && (p.cacheMultiplier == 0 || p.cacheMultiplier == 1_000_000)
    requires u.prompt * p.promptRate + u.completion * p.completionRate + 500_000 <= MAX_INT64
    ensures CheckedCost(Some(u), p)
            == Some((u.prompt * p.promptRate + u.completion * p.completionRate + 500_000) / 1_000_000)
            == Some(FullCost(u, p))
  {
    var c, total := CachedTokens(u), u.prompt * p.promptRate + u.completion * p.completionRate;
    assert CachedRate(p) == p.promptRate by { FloorIs(p.promptRate * MILLION + HALF, p.promptRate); }
    assert (u.prompt - c) * p.promptRate + c * p.promptRate == u.prompt * p.promptRate;
    assert Micros(u, p) == total;
    ProductsNonNegative(u, p);
    ProductBound(u.prompt, p.promptRate, u.prompt, p.promptRate);
  }

  /** The same bound for the int64 form, wherever it does not overflow. */
  lemma CostRoundingError(u: Usage, p: Pricing)
    requires ValidCharge(u, p) && NoOverflow(u, p)
    ensures var err := Cost(u, p) * MILLION * MILLION - ExactScaled(u, p);
            -(HALF * (MILLION + CachedTokens(u))) <= err <= HALF * (MILLION + CachedTokens(u))
  {
    hide Cost, CheckedCost, ExactScaled, CachedTokens, NoOverflow, ValidCharge;
    CostRefinesChecked(u, p);
    RoundingError(u, p);
  }
}
