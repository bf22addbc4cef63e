/** The finance report's gross margin (services/api/routers/admin_ai_finance.py): it
    adds up usage rows, whose columns have rounded each charge. */
module Margins {
  import opened Wrappers
  import opened Pricing

  function UsageRows(cs: seq<Charge>): seq<Charge> {
    if cs == [] then [] else UsageRows(cs[..|cs| - 1]) + [UsageRow(cs[|cs| - 1])]
  }

  lemma {:induction false} RowsAreNear(cs: seq<Charge>)
    requires forall c :: c in cs ==> c.credits >= 0.0 && c.cogs >= 0.0
    ensures var n, rows := |cs| as real, UsageRows(cs);
            && -0.0000005 * n <= TotalCredits(rows) - TotalCredits(cs) <= 0.0000005 * n
            && -0.000000005 * n <= TotalCogs(rows) - TotalCogs(cs) <= 0.000000005 * n
  {
    if cs != [] {
      var init, c := cs[..|cs| - 1], cs[|cs| - 1];
      RowsAreNear(init);
      RoundIsNear(c.credits, 1000000.0);
      RoundIsNear(c.cogs, 100000000.0);
      assert UsageRows(cs)[..|UsageRows(cs)| - 1] == UsageRows(init);
    }
  }

  /** The most rounding can move the reported margin of n rows. */
  function RowErrors(n: nat, v: real): real {
    0.0000005 * n as real * v + 0.000000005 * n as real
  }

  lemma MarginMovesBy(credits: real, x: real, cogs: real, y: real, n: nat, v: real)
    requires v > 0.0 && -0.0000005 * n as real <= x <= 0.0000005 * n as real
    requires -0.000000005 * n as real <= y <= 0.000000005 * n as real
    ensures -RowErrors(n, v) <= Margin(credits + x, cogs + y, v) - Margin(credits, cogs, v) <= RowErrors(n, v)
  {
    var a := 0.0000005 * n as real;
    assert (a - x) * v >= 0.0 && (a + x) * v >= 0.0;
    assert (credits + x) * v == credits * v + x * v;
  }

  lemma MarginMoves(credits: real, credits': real, cogs: real, cogs': real, n: nat, v: real)
    requires v > 0.0 && -0.0000005 * n as real <= credits' - credits <= 0.0000005 * n as real
    requires -0.000000005 * n as real <= cogs' - cogs <= 0.000000005 * n as real
    ensures -RowErrors(n, v) <= Margin(credits', cogs', v) - Margin(credits, cogs, v) <= RowErrors(n, v)
  {
    var x, y := credits' - credits, cogs' - cogs;
    MarginMovesBy(credits, x, cogs, y, n, v);
    assert credits + x == credits' && cogs + y == cogs';
  }

  lemma ReportedNear(v: real, cs: seq<Charge>)
    requires v > 0.0 && forall c :: c in cs ==> c.credits >= 0.0 && c.cogs >= 0.0
    ensures var rows := UsageRows(cs);
            -RowErrors(|cs|, v)
            <= Margin(TotalCredits(rows), TotalCogs(rows), v) - Margin(TotalCredits(cs), TotalCogs(cs), v)
            <= RowErrors(|cs|, v)
  {
    RowsAreNear(cs);
    MarginMoves(TotalCredits(cs), TotalCredits(UsageRows(cs)), TotalCogs(cs), TotalCogs(UsageRows(cs)), |cs|, v);
  }

  /** The report adds up rounded rows: what it shows is within half a last place a row
      of the margin on the charges, so it loses no more than that. */
  lemma ReportedMargin(cfg: Config, cs: seq<Charge>)
    requires ConfigOk(cfg) && forall c :: c in cs ==> Priced(cfg, c)
    ensures var e := RowErrors(|cs|, cfg.usdPerCredit);
            -e <= GrossMarginUsd(cfg, UsageRows(cs)) - GrossMarginUsd(cfg, cs) <= e
    ensures GrossMarginUsd(cfg, UsageRows(cs)) >= -RowErrors(|cs|, cfg.usdPerCredit)
  {
    forall c | c in cs ensures c.credits >= 0.0 && c.cogs >= 0.0 {
      assert Priced(cfg, c);
    }
    ReportedNear(cfg.usdPerCredit, cs);
    GrossMargin(cfg, cs);
  }

  // ---- when the report can show a loss ----------------------------------------------------------

  /** What a turn at this provider cost adds to the reported margin. */
  function RowMargin(cfg: Config, cost: real): real
    requires ConfigOk(cfg) && cost >= 0.0
  {
    CreditsNonNegative(cfg, cost);
    Margin(Round(CreditsFromCost(cost, cfg), 1000000.0), Round(cost, 100000000.0), cfg.usdPerCredit)
  }

  lemma CreditsNonNegative(cfg: Config, cost: real)
    requires ConfigOk(cfg)
    ensures CreditsFromCost(cost, cfg) >= 0.0
  {
    if cost > 0.0 {
      CreditsWorth(cost, cfg);
    }
  }

  ghost predicate SheetsOk(uses: seq<Use>) {
    forall u :: u in uses && u.price.Some? ==> SheetOk(u.price.value)
  }

  /** The usage row a turn leaves, and what it adds to the report. */
  function RowOf(cfg: Config, u: Use): Charge {
    UsageRow(ChargeForTurn(u.rung, cfg, u.price, u.tokensIn, u.tokensOut))
  }

  function Adds(cfg: Config, u: Use): real {
    Margin(RowOf(cfg, u).credits, RowOf(cfg, u).cogs, cfg.usdPerCredit)
  }

  function Reported(cfg: Config, uses: seq<Use>): real {
    GrossMarginUsd(cfg, UsageRows(Charges(cfg, uses)))
  }

  /** No run of turns, whatever rungs, sheets and tokens they use, is reported at a loss. */
  ghost predicate NeverReportsLoss(cfg: Config) {
    forall uses :: SheetsOk(uses) ==> Reported(cfg, uses) >= 0.0
  }

  /** No single provider cost is. */
  ghost predicate NoCostLoses(cfg: Config)
    requires ConfigOk(cfg)
  {
    forall cost: real :: cost >= 0.0 ==> RowMargin(cfg, cost) >= 0.0
  }

  lemma MarginSplits(credits: real, x: real, cogs: real, y: real, v: real)
    ensures Margin(credits + x, cogs + y, v) == Margin(credits, cogs, v) + Margin(x, y, v)
  {
  }

  /** One turn's row adds nothing negative if no cost loses: flat credits cost nothing. */
  lemma TurnAddsNoLoss(cfg: Config, u: Use)
    requires ConfigOk(cfg) && NoCostLoses(cfg) && (u.price.Some? ==> SheetOk(u.price.value))
    ensures Adds(cfg, u) >= 0.0
  {
    var c := ChargeForTurn(u.rung, cfg, u.price, u.tokensIn, u.tokensOut);
    TurnIsPriced(u.rung, cfg, u.price, u.tokensIn, u.tokensOut);
    if c.cogs > 0.0 {
      assert c.credits == CreditsFromCost(c.cogs, cfg);
      assert RowMargin(cfg, c.cogs) >= 0.0;
    } else {
      RoundOfZero(100000000.0);
    }
  }

  lemma RoundOfZero(unit: real)
    requires unit > 0.0
    ensures Round(0.0, unit) == 0.0
  {
  }

  lemma RowsGrow(cfg: Config, uses: seq<Use>, u: Use)
    ensures UsageRows(Charges(cfg, uses + [u])) == UsageRows(Charges(cfg, uses)) + [RowOf(cfg, u)]
  {
    var cs := Charges(cfg, uses);
    assert (uses + [u])[..|uses|] == uses;
    var c := ChargeForTurn(u.rung, cfg, u.price, u.tokensIn, u.tokensOut);
    assert (cs + [c])[..|cs|] == cs;
  }

  lemma TotalsGrow(rows: seq<Charge>, row: Charge)
    ensures TotalCredits(rows + [row]) == TotalCredits(rows) + row.credits
    ensures TotalCogs(rows + [row]) == TotalCogs(rows) + row.cogs
  {
    assert (rows + [row])[..|rows|] == rows;
  }

  /** One more turn adds its row's margin. */
  lemma LastRow(cfg: Config, uses: seq<Use>, u: Use)
    ensures Reported(cfg, uses + [u]) == Reported(cfg, uses) + Adds(cfg, u)
  {
    var rows, row := UsageRows(Charges(cfg, uses)), RowOf(cfg, u);
    RowsGrow(cfg, uses, u);
    TotalsGrow(rows, row);
    MarginSplits(TotalCredits(rows), row.credits, TotalCogs(rows), row.cogs, cfg.usdPerCredit);
  }

  function AddsAll(cfg: Config, uses: seq<Use>): real {
    if uses == [] then 0.0 else AddsAll(cfg, uses[..|uses| - 1]) + Adds(cfg, uses[|uses| - 1])
  }

  lemma NothingReported(cfg: Config)
    ensures Reported(cfg, []) == 0.0
  {
  }

  lemma {:induction false} ReportedAddsUp(cfg: Config, uses: seq<Use>)
    ensures Reported(cfg, uses) == AddsAll(cfg, uses)
  {
    if uses == [] {
      NothingReported(cfg);
    } else {
      var init, u := uses[..|uses| - 1], uses[|uses| - 1];
      ReportedAddsUp(cfg, init);
      LastRow(cfg, init, u);
      assert uses == init + [u];
    }
  }

  lemma {:induction false} RunAddsNoLoss(cfg: Config, uses: seq<Use>)
    requires ConfigOk(cfg) && NoCostLoses(cfg) && SheetsOk(uses)
    ensures AddsAll(cfg, uses) >= 0.0
  {
    if uses != [] {
      var init, u := uses[..|uses| - 1], uses[|uses| - 1];
      assert u in uses && forall x :: x in init ==> x in uses;
      RunAddsNoLoss(cfg, init);
      TurnAddsNoLoss(cfg, u);
    }
  }

  /** The costs at which the provider-cost column jumps, from k to k + 1 last places. */
  function CostAt(k: nat): real {
    (k as real + 0.5) * 0.00000001
  }

  /** One token at the price that costs so much: 0.005, 0.015, 0.025, .. USD a million. */
  function HalfwayUse(k: nat): Use {
    Use(Frontier, Some(ModelPrice((k as real + 0.5) * 0.01, 0.0)), 1, 0)
  }

  lemma HalfwayCharge(cfg: Config, k: nat)
    requires ConfigOk(cfg)
    ensures ChargeForTurn(Frontier, cfg, HalfwayUse(k).price, 1, 0)
         == Charge(CreditsFromCost(CostAt(k), cfg), CostAt(k))
  {
    var p := HalfwayUse(k).price.value;
    assert ProviderCost(p, 1, 0) == CostAt(k);
  }

  /** Its report is the row's margin. */
  lemma HalfwayReports(cfg: Config, k: nat)
    requires ConfigOk(cfg)
    ensures SheetsOk([HalfwayUse(k)])
    ensures Reported(cfg, [HalfwayUse(k)]) == RowMargin(cfg, CostAt(k))
  {
    HalfwayCharge(cfg, k);
    CreditsNonNegative(cfg, CostAt(k));
    assert Adds(cfg, HalfwayUse(k)) == RowMargin(cfg, CostAt(k));
    NothingReported(cfg);
    LastRow(cfg, [], HalfwayUse(k));
    assert [] + [HalfwayUse(k)] == [HalfwayUse(k)];
  }

  lemma ScaleMonotone(x: real, y: real, g: real, v: real)
    requires 0.0 <= x <= y && g > 0.0 && v > 0.0
    ensures x * g / v <= y * g / v
  {
    assert x * g <= y * g;
    var p, q := x * g / v, y * g / v;
    assert p * v == x * g && q * v == y * g;
  }

  lemma CreditsGrow(cfg: Config, x: real, y: real)
    requires ConfigOk(cfg) && 0.0 < x <= y
    ensures CreditsFromCost(x, cfg) <= CreditsFromCost(y, cfg)
  {
    ScaleMonotone(x, y, 1.0 + cfg.marginPercent / 100.0, cfg.usdPerCredit);
  }

  lemma RoundGrows(x: real, y: real)
    requires 0.0 <= x <= y
    ensures Round(x, 1000000.0) <= Round(y, 1000000.0)
  {
    var m, n := (x * 1000000.0 + 0.5).Floor, (y * 1000000.0 + 0.5).Floor;
    assert m <= n;
    assert Round(x, 1000000.0) == m as real / 1000000.0 && Round(y, 1000000.0) == n as real / 1000000.0;
  }

  lemma HalfwayRound(k: nat)
    ensures Round(CostAt(k), 100000000.0) == (k as real + 1.0) * 0.00000001
  {
    assert CostAt(k) * 100000000.0 == k as real + 0.5;
    assert (k as real + 1.0).Floor == k + 1;
  }

  /** A cost with the same cost column as the jump below it is charged no less. */
  lemma JumpIsWorst(cfg: Config, cost: real, k: nat)
    requires ConfigOk(cfg) && cost >= 0.0 && (cost * 100000000.0 + 0.5).Floor == k + 1
    ensures RowMargin(cfg, CostAt(k)) <= RowMargin(cfg, cost)
  {
    assert CostAt(k) <= cost;
    HalfwayRound(k);
    CreditsGrow(cfg, CostAt(k), cost);
    RoundGrows(CreditsFromCost(CostAt(k), cfg), CreditsFromCost(cost, cfg));
    assert Round(cost, 100000000.0) == Round(CostAt(k), 100000000.0);
    WorthGrows(Round(CreditsFromCost(CostAt(k), cfg), 1000000.0), Round(CreditsFromCost(cost, cfg), 1000000.0),
               Round(cost, 100000000.0), cfg.usdPerCredit);
  }

  lemma WorthGrows(x: real, y: real, cogs: real, v: real)
    requires x <= y && v > 0.0
    ensures Margin(x, cogs, v) <= Margin(y, cogs, v)
  {
    assert (y - x) * v >= 0.0;
  }

  lemma SmallCostsKeep(cfg: Config, cost: real)
    requires ConfigOk(cfg) && cost >= 0.0 && (cost * 100000000.0 + 0.5).Floor == 0
    ensures RowMargin(cfg, cost) >= 0.0
  {
    CreditsNonNegative(cfg, cost);
    assert Round(cost, 100000000.0) == 0.0;
    WorthGrows(0.0, Round(CreditsFromCost(cost, cfg), 1000000.0), 0.0, cfg.usdPerCredit);
  }

  ghost predicate HalfwayKept(cfg: Config, k: nat)
    requires ConfigOk(cfg)
  {
    RowMargin(cfg, CostAt(k)) >= 0.0
  }

  lemma NoCostLosesIff(cfg: Config)
    requires ConfigOk(cfg)
    ensures NoCostLoses(cfg) <==> forall k: nat :: HalfwayKept(cfg, k)
  {
    if forall k: nat :: HalfwayKept(cfg, k) {
      forall cost: real | cost >= 0.0 ensures RowMargin(cfg, cost) >= 0.0 {
        var n := (cost * 100000000.0 + 0.5).Floor;
        if n == 0 {
          SmallCostsKeep(cfg, cost);
        } else {
          assert HalfwayKept(cfg, n - 1);
          JumpIsWorst(cfg, cost, n - 1);
        }
      }
    } else {
      var k: nat :| !HalfwayKept(cfg, k);
      assert RowMargin(cfg, CostAt(k)) < 0.0;
    }
  }

  /** Is the margin on the k-th jump too small to make up for both columns' rounding? */
  predicate Tight(cfg: Config, k: nat) {
    (k as real + 0.5) * (cfg.marginPercent / 100.0) < 0.5 + 50.0 * cfg.usdPerCredit
  }

  lemma LooseKeeps(cfg: Config, k: nat)
    requires ConfigOk(cfg) && !Tight(cfg, k)
    ensures HalfwayKept(cfg, k)
  {
    var cost, v, m := CostAt(k), cfg.usdPerCredit, cfg.marginPercent / 100.0;
    var credits := CreditsFromCost(cost, cfg);
    CreditsWorth(cost, cfg);
    RoundIsNear(credits, 1000000.0);
    HalfwayRound(k);
    WorthGrows(credits - 0.0000005, Round(credits, 1000000.0), Round(cost, 100000000.0), v);
    LooseMargin(k as real + 0.5, m, v, credits);
  }

  lemma LooseMargin(h: real, m: real, v: real, credits: real)
    requires h * m >= 0.5 + 50.0 * v && credits * v == h * 0.00000001 + m * (h * 0.00000001)
    ensures Margin(credits - 0.0000005, (h + 0.5) * 0.00000001, v) >= 0.0
  {
    assert m * (h * 0.00000001) == h * m * 0.00000001;
    assert (credits - 0.0000005) * v == credits * v - 0.0000005 * v;
  }

  /** With a margin only the first jumps are tight. */
  function TightJumps(cfg: Config): int
    requires cfg.marginPercent > 0.0
  {
    ((0.5 + 50.0 * cfg.usdPerCredit) / (cfg.marginPercent / 100.0)).Floor + 1
  }

  lemma TightIsEarly(cfg: Config, k: nat)
    requires ConfigOk(cfg) && cfg.marginPercent > 0.0 && Tight(cfg, k)
    ensures k < TightJumps(cfg)
  {
    var m, x := cfg.marginPercent / 100.0, 0.5 + 50.0 * cfg.usdPerCredit;
    var q := x / m;
    assert q * m == x;
    assert (q - (k as real + 0.5)) * m == q * m - (k as real + 0.5) * m;
    PositiveFactor(q - (k as real + 0.5), m);
  }

  /** The reports of a configuration never show a loss exactly when no single cost does,
      and exactly when the jumps of the provider-cost column that are too tight for the
      margin to cover the rounding keep theirs: with a margin, finitely many. */
  lemma ReportsNeverLoseIff(cfg: Config)
    requires ConfigOk(cfg)
    ensures NeverReportsLoss(cfg) <==> NoCostLoses(cfg)
    ensures NeverReportsLoss(cfg) <==> forall k: nat :: Tight(cfg, k) ==> HalfwayKept(cfg, k)
    ensures cfg.marginPercent > 0.0 ==>
              (NeverReportsLoss(cfg) <==> forall k: nat :: k < TightJumps(cfg) ==> HalfwayKept(cfg, k))
  {
    forall k: nat ensures HalfwayKept(cfg, k) || Tight(cfg, k) {
      if !Tight(cfg, k) {
        LooseKeeps(cfg, k);
      }
    }
    if cfg.marginPercent > 0.0 {
      forall k: nat | Tight(cfg, k) ensures k < TightJumps(cfg) {
        TightIsEarly(cfg, k);
      }
    }
    NoCostLosesIff(cfg);
    if NoCostLoses(cfg) {
      forall uses | SheetsOk(uses) ensures Reported(cfg, uses) >= 0.0 {
        ReportedAddsUp(cfg, uses);
        RunAddsNoLoss(cfg, uses);
      }
    } else {
      var k: nat :| !HalfwayKept(cfg, k);
      HalfwayReports(cfg, k);
      assert !NeverReportsLoss(cfg);
    }
  }

  /** With a margin of 100% and a hundred times the credit's value on top, they never do. */
  lemma AmpleMarginNeverLoses(cfg: Config)
    requires ConfigOk(cfg) && cfg.marginPercent >= 100.0 + 10000.0 * cfg.usdPerCredit
    ensures NeverReportsLoss(cfg)
  {
    forall k: nat ensures !Tight(cfg, k) {
      var m := cfg.marginPercent / 100.0;
      assert k as real * m >= 0.0;
      assert (k as real + 0.5) * m == k as real * m + 0.5 * m;
    }
    ReportsNeverLoseIff(cfg);
  }

  /** Without a margin they never do exactly when a credit is worth a cent, so that both
      columns round alike. */
  lemma NoMarginNeverLosesIff(cfg: Config)
    requires ConfigOk(cfg) && cfg.marginPercent == 0.0
    ensures NeverReportsLoss(cfg) <==> cfg.usdPerCredit == 0.01
  {
    ReportsNeverLoseIff(cfg);
    if cfg.usdPerCredit == 0.01 {
      forall k: nat ensures HalfwayKept(cfg, k) {
        CentKeeps(cfg, k);
      }
    } else {
      NoMarginFirstJump(cfg);
      assert Tight(cfg, 0) && !HalfwayKept(cfg, 0);
    }
  }

  lemma CentKeeps(cfg: Config, k: nat)
    requires ConfigOk(cfg) && cfg.marginPercent == 0.0 && cfg.usdPerCredit == 0.01
    ensures HalfwayKept(cfg, k)
  {
    HalfwayRound(k);
    assert CreditsFromCost(CostAt(k), cfg) == (k as real + 0.5) * 0.000001;
    assert ((k as real + 0.5) * 0.000001) * 1000000.0 == k as real + 0.5;
    assert (k as real + 1.0).Floor == k + 1;
  }

  lemma PositiveFactor(x: real, v: real)
    requires v > 0.0 && x * v > 0.0
    ensures x > 0.0
  {
  }

  lemma NoMarginFirstJump(cfg: Config)
    requires ConfigOk(cfg) && cfg.marginPercent == 0.0 && cfg.usdPerCredit != 0.01
    ensures !HalfwayKept(cfg, 0)
  {
    var v := cfg.usdPerCredit;
    var credits := CreditsFromCost(CostAt(0), cfg);
    HalfwayRound(0);
    CreditsWorth(CostAt(0), cfg);
    CreditsNonNegative(cfg, CostAt(0));
    var n := (credits * 1000000.0 + 0.5).Floor;
    assert credits * v == 0.000000005;
    if v > 0.01 {
      assert (0.0000005 - credits) * v == 0.0000005 * v - credits * v;
      PositiveFactor(0.0000005 - credits, v);
      assert n == 0;
    } else {
      assert n as real * 0.000001 <= credits + 0.0000005;
      WorthGrows(n as real * 0.000001, credits + 0.0000005, 0.00000001, v);
      assert (credits + 0.0000005) * v == 0.000000005 + 0.0000005 * v;
    }
  }

  /** The default pricing shows losses: one token at 0.005 USD a million costs the
      platform 0.000000005 USD, which the one column doubles and the other keeps. */
  lemma DefaultReportsLoss(local: ModelPrice)
    requires SheetOk(local)
    ensures var cfg := Config(0.0001, 30.0, 0.01, local);
            && ConfigOk(cfg) && !NeverReportsLoss(cfg)
            && HalfwayUse(0) == Use(Frontier, Some(ModelPrice(0.005, 0.0)), 1, 0)
            && Reported(cfg, [HalfwayUse(0)]) == -0.0000000035
  {
    var cfg := Config(0.0001, 30.0, 0.01, local);
    HalfwayReports(cfg, 0);
    HalfwayRound(0);
    assert CreditsFromCost(CostAt(0), cfg) == 0.000065;
    assert Round(0.000065, 1000000.0) == 0.000065;
  }
}
