/** Token pricing (packages/acip_billing/pricing.py): what a turn cost the platform
    and what the tenant is charged for it. Reals stand for the code's floats. */
module Pricing {
  import opened Wrappers

  datatype Rung = Cache | Rule | Search | Local | Frontier

  datatype ModelPrice = ModelPrice(inputPer1M: real, outputPer1M: real)

  datatype Config = Config(usdPerCredit: real, marginPercent: real, searchCredits: real, local: ModelPrice)

  /** One turn's credits and provider cost in USD. */
  datatype Charge = Charge(credits: real, cogs: real)

  function RungCredits(rung: Rung): real {
    match rung
    case Cache => 0.0
    case Rule => 0.0
    case Search => 0.01
    case Local => 0.1
    case Frontier => 1.0
  }

  function Tokens(n: int): real {
    if n < 0 then 0.0 else n as real
  }

  function ProviderCost(price: ModelPrice, tokensIn: int, tokensOut: int): real {
    (Tokens(tokensIn) * price.inputPer1M + Tokens(tokensOut) * price.outputPer1M) / 1000000.0
  }

  function CreditsFromCost(cost: real, cfg: Config): real {
    if cost <= 0.0 || cfg.usdPerCredit <= 0.0 then 0.0
    else cost * (1.0 + cfg.marginPercent / 100.0) / cfg.usdPerCredit
  }

  function ChargeForTurn(rung: Rung, cfg: Config, price: Option<ModelPrice>, tokensIn: int, tokensOut: int): Charge {
    match rung
    case Cache => Charge(0.0, 0.0)
    case Rule => Charge(0.0, 0.0)
    case Search => Charge(cfg.searchCredits, 0.0)
    case Local =>
      var cost := ProviderCost(cfg.local, tokensIn, tokensOut);
      if cost <= 0.0 then Charge(RungCredits(Local), 0.0) else Charge(CreditsFromCost(cost, cfg), cost)
    case Frontier =>
      if price.Some? && (price.value.inputPer1M > 0.0 || price.value.outputPer1M > 0.0) then
        var cost := ProviderCost(price.value, tokensIn, tokensOut);
        Charge(CreditsFromCost(cost, cfg), cost)
      else Charge(RungCredits(Frontier), 0.0)
  }

  // ---- the margin ---------------------------------------------------------------------------

  predicate SheetOk(p: ModelPrice) {
    p.inputPer1M >= 0.0 && p.outputPer1M >= 0.0
  }

  predicate ConfigOk(cfg: Config) {
    cfg.usdPerCredit > 0.0 && cfg.marginPercent >= 0.0 && cfg.searchCredits >= 0.0 && SheetOk(cfg.local)
  }

  lemma DivideMultiply(x: real, v: real)
    requires v > 0.0
    ensures x / v * v == x
    ensures x > 0.0 ==> x / v > 0.0
  {
  }

  /** Marked-up credits are worth the cost plus the margin. */
  lemma CreditsWorth(cost: real, cfg: Config)
    requires cost > 0.0 && cfg.usdPerCredit > 0.0
    ensures CreditsFromCost(cost, cfg) * cfg.usdPerCredit == cost + cfg.marginPercent / 100.0 * cost
    ensures cfg.marginPercent >= 0.0 ==> CreditsFromCost(cost, cfg) > 0.0
  {
  }

  /** Credits charged without a provider cost behind them. */
  function Flat(c: Charge): real {
    if c.cogs == 0.0 then c.credits else 0.0
  }

  /** What pricing promises of one charge. */
  ghost predicate Priced(cfg: Config, c: Charge) {
    && c.credits >= 0.0 && c.cogs >= 0.0
    && (c.cogs > 0.0 ==> c.credits * cfg.usdPerCredit == c.cogs + cfg.marginPercent / 100.0 * c.cogs)
  }

  lemma TurnIsPriced(rung: Rung, cfg: Config, price: Option<ModelPrice>, tokensIn: int, tokensOut: int)
    requires ConfigOk(cfg) && (price.Some? ==> SheetOk(price.value))
    ensures Priced(cfg, ChargeForTurn(rung, cfg, price, tokensIn, tokensOut))
  {
  }

  function TotalCredits(cs: seq<Charge>): real {
    if cs == [] then 0.0 else TotalCredits(cs[..|cs| - 1]) + cs[|cs| - 1].credits
  }

  function TotalCogs(cs: seq<Charge>): real {
    if cs == [] then 0.0 else TotalCogs(cs[..|cs| - 1]) + cs[|cs| - 1].cogs
  }

  function TotalFlat(cs: seq<Charge>): real {
    if cs == [] then 0.0 else TotalFlat(cs[..|cs| - 1]) + Flat(cs[|cs| - 1])
  }

  /** Consumed credits are worth their provider cost, the margin m on it and the
      flat-priced credits, at v USD a credit. */
  ghost predicate MarginEquation(v: real, m: real, credits: real, cogs: real, flat: real) {
    credits * v - cogs == m * cogs + v * flat
  }

  lemma AddTurn(v: real, m: real, credits: real, cogs: real, flat: real, c: Charge)
    requires MarginEquation(v, m, credits, cogs, flat)
    requires c.cogs >= 0.0 && (c.cogs > 0.0 ==> c.credits * v == c.cogs + m * c.cogs)
    ensures MarginEquation(v, m, credits + c.credits, cogs + c.cogs, flat + Flat(c))
  {
  }

  lemma NeverALoss(v: real, m: real, credits: real, cogs: real, flat: real)
    requires MarginEquation(v, m, credits, cogs, flat) && v > 0.0 && m >= 0.0 && cogs >= 0.0 && flat >= 0.0
    ensures credits * v - cogs >= 0.0
  {
  }

  function Margin(credits: real, cogs: real, v: real): real {
    credits * v - cogs
  }

  /** Gross margin as the finance report computes it: worth of the credits consumed
      less provider cost. */
  function GrossMarginUsd(cfg: Config, cs: seq<Charge>): real {
    Margin(TotalCredits(cs), TotalCogs(cs), cfg.usdPerCredit)
  }

  ghost predicate MarginKept(cfg: Config, cs: seq<Charge>) {
    && MarginEquation(cfg.usdPerCredit, cfg.marginPercent / 100.0, TotalCredits(cs), TotalCogs(cs), TotalFlat(cs))
    && TotalCogs(cs) >= 0.0 && TotalFlat(cs) >= 0.0
  }

  lemma {:induction false} MarginAddsUp(cfg: Config, cs: seq<Charge>)
    requires ConfigOk(cfg) && forall c :: c in cs ==> Priced(cfg, c)
    ensures MarginKept(cfg, cs)
  {
    if cs != [] {
      var init, c := cs[..|cs| - 1], cs[|cs| - 1];
      MarginAddsUp(cfg, init);
      assert Priced(cfg, c);
      AddTurn(cfg.usdPerCredit, cfg.marginPercent / 100.0, TotalCredits(init), TotalCogs(init), TotalFlat(init), c);
    }
  }

  /** Over any run at one pricing, the gross margin on the charges is the margin on the
      provider cost plus the worth of the flat-priced credits, and never a loss. */
  lemma GrossMargin(cfg: Config, cs: seq<Charge>)
    requires ConfigOk(cfg) && forall c :: c in cs ==> Priced(cfg, c)
    ensures MarginKept(cfg, cs) && GrossMarginUsd(cfg, cs) >= 0.0
  {
    MarginAddsUp(cfg, cs);
    NeverALoss(cfg.usdPerCredit, cfg.marginPercent / 100.0, TotalCredits(cs), TotalCogs(cs), TotalFlat(cs));
  }

  /** One metered turn: its rung, its model's sheet and the tokens it used. */
  datatype Use = Use(rung: Rung, price: Option<ModelPrice>, tokensIn: int, tokensOut: int)

  function Charges(cfg: Config, uses: seq<Use>): seq<Charge> {
    if uses == [] then []
    else
      var u := uses[|uses| - 1];
      Charges(cfg, uses[..|uses| - 1]) + [ChargeForTurn(u.rung, cfg, u.price, u.tokensIn, u.tokensOut)]
  }

  lemma {:induction false} ChargesArePriced(cfg: Config, uses: seq<Use>)
    requires ConfigOk(cfg) && forall u :: u in uses && u.price.Some? ==> SheetOk(u.price.value)
    ensures forall c :: c in Charges(cfg, uses) ==> Priced(cfg, c)
  {
    if uses != [] {
      var init, u := uses[..|uses| - 1], uses[|uses| - 1];
      assert u in uses && forall x :: x in init ==> x in uses;
      ChargesArePriced(cfg, init);
      TurnIsPriced(u.rung, cfg, u.price, u.tokensIn, u.tokensOut);
    }
  }

  /** So it is for the turns themselves: whatever rungs, models and tokens a run
      used, what the tenants consumed is worth its provider cost, the margin on it
      and the flat credits. */
  lemma MarginOfTurns(cfg: Config, uses: seq<Use>)
    requires ConfigOk(cfg) && forall u :: u in uses && u.price.Some? ==> SheetOk(u.price.value)
    ensures MarginKept(cfg, Charges(cfg, uses)) && GrossMarginUsd(cfg, Charges(cfg, uses)) >= 0.0
  {
    ChargesArePriced(cfg, uses);
    GrossMargin(cfg, Charges(cfg, uses));
  }

  /** A local turn is never free, and a frontier turn is free only when its price
      sheet is set and it used no priced token. */
  lemma NeverSilentlyFree(cfg: Config, price: Option<ModelPrice>, tokensIn: int, tokensOut: int)
    requires ConfigOk(cfg) && (price.Some? ==> SheetOk(price.value))
    ensures ChargeForTurn(Local, cfg, price, tokensIn, tokensOut).credits > 0.0
    ensures ChargeForTurn(Frontier, cfg, price, tokensIn, tokensOut).credits == 0.0
       <==> price.Some? && (price.value.inputPer1M > 0.0 || price.value.outputPer1M > 0.0)
            && ProviderCost(price.value, tokensIn, tokensOut) == 0.0
  {
  }

  // ---- numeric columns ------------------------------------------------------------------------

  /** A non-negative amount as a NUMERIC column with 1/unit resolution keeps it:
      rounded to the nearest, halves away from zero. */
  function Round(x: real, unit: real): (r: real)
    requires x >= 0.0 && unit > 0.0
    ensures r >= 0.0
  {
    DivideMultiply(1.0, unit);
    assert x * unit >= 0.0;
    assert (x * unit + 0.5).Floor as real / unit >= 0.0;
    (x * unit + 0.5).Floor as real / unit
  }

  lemma HalfUnit(x: real, unit: real, n: int)
    requires unit > 0.0 && n as real <= x * unit + 0.5 < n as real + 1.0
    ensures -0.5 / unit <= n as real / unit - x <= 0.5 / unit
  {
  }

  /** A stored amount is off by at most half a unit, and exact on whole units. */
  lemma RoundIsNear(x: real, unit: real)
    requires x >= 0.0 && unit > 0.0
    ensures -0.5 / unit <= Round(x, unit) - x <= 0.5 / unit
    ensures (x * unit).Floor as real == x * unit ==> Round(x, unit) == x
  {
    HalfUnit(x, unit, (x * unit + 0.5).Floor);
    if (x * unit).Floor as real == x * unit {
      assert (x * unit + 0.5).Floor == (x * unit).Floor;
      DivideMultiply(x * unit, unit);
      assert (x * unit) / unit == x;
    }
  }

  /** The usage row of a charge: its cost has six decimals, its provider cost eight. */
  function UsageRow(c: Charge): Charge {
    Charge(Column(c.credits, 1000000.0), Column(c.cogs, 100000000.0))
  }

  function Column(x: real, unit: real): real
    requires unit > 0.0
  {
    if x >= 0.0 then Round(x, unit) else -Round(-x, unit)
  }

  const CREDIT_VALUE_UNIT := 100000000.0

  /** What the pricing editor lets through. */
  predicate Accepted(cfg: Config) {
    && 0.000000001 <= cfg.usdPerCredit <= 1000.0
    && 0.0 <= cfg.marginPercent <= 1000.0
    && 0.0 <= cfg.searchCredits <= 1000.0
    && 0.0 <= cfg.local.inputPer1M <= 100000.0
    && 0.0 <= cfg.local.outputPer1M <= 100000.0
  }

  /** The settings row an accepted update leaves. */
  function StoredConfig(cfg: Config): Config
    requires Accepted(cfg)
  {
    Config(Round(cfg.usdPerCredit, CREDIT_VALUE_UNIT), Round(cfg.marginPercent, 100.0),
           Round(cfg.searchCredits, 10000.0),
           ModelPrice(Round(cfg.local.inputPer1M, 1000000.0), Round(cfg.local.outputPer1M, 1000000.0)))
  }

  lemma TinyCreditValue(v: real)
    requires v > 0.0
    ensures Round(v, CREDIT_VALUE_UNIT) > 0.0 <==> v >= 0.000000005
  {
  }

  /** An accepted update keeps the margin promise exactly when the credit value is
      at least half the column's last place; below it the stored value is 0, every
      token-priced turn is charged nothing, and its provider cost is lost. */
  lemma AcceptedUpdateKeepsMargin(cfg: Config, cost: real)
    requires Accepted(cfg) && cost > 0.0
    ensures ConfigOk(StoredConfig(cfg)) <==> cfg.usdPerCredit >= 0.000000005
    ensures CreditsFromCost(cost, StoredConfig(cfg)) * StoredConfig(cfg).usdPerCredit - cost >= 0.0
       <==> cfg.usdPerCredit >= 0.000000005
  {
    var stored := StoredConfig(cfg);
    TinyCreditValue(cfg.usdPerCredit);
    if stored.usdPerCredit > 0.0 {
      CreditsWorth(cost, stored);
      assert stored.marginPercent / 100.0 * cost >= 0.0;
    }
  }
}
