/**
 * The rate expressions of `get_kpi_data`, over exact reals. Rounding to two
 * decimals is a presentation step and is not modelled.
 */
module Kpis {

  /** `part / whole * 100 if whole > 0 else 0.0` */
  function Percent(part: nat, whole: nat): (r: real)
    ensures whole == 0 ==> r == 0.0
    ensures r >= 0.0
    ensures part <= whole ==> r <= 100.0
    ensures 0 < whole && part == whole ==> r == 100.0
  {
    if whole > 0 then part as real / whole as real * 100.0 else 0.0
  }

  /** Percentages of one whole add up like their parts. */
  lemma PercentAdds(a: nat, b: nat, whole: nat)
    ensures Percent(a, whole) + Percent(b, whole) == Percent(a + b, whole)
  {
    if whole > 0 {
      var w := whole as real;
      assert a as real / w + b as real / w == (a + b) as real / w;
    }
  }

  /** The derived rates of the KPI block. */
  datatype Rates = Rates(won: real, lost: real, conversion: real)

  /**
   * `get_kpi_data`: the won and lost rates are shares of all opportunities
   * (active plus lost), the conversion rate the share of opportunities
   * among leads and opportunities; each is 0 when its denominator is 0.
   */
  function RatesOf(leadCount: nat, activeCount: nat, lostCount: nat, wonCount: nat): (r: Rates)
    ensures activeCount + lostCount == 0 ==> r.won == 0.0 && r.lost == 0.0
    ensures leadCount + activeCount + lostCount == 0 ==> r.conversion == 0.0
    ensures 0.0 <= r.lost <= 100.0
    ensures 0.0 <= r.conversion <= 100.0
    ensures r.won >= 0.0
    ensures leadCount == 0 && activeCount + lostCount > 0 ==> r.conversion == 100.0
  {
    var totalOpps := activeCount + lostCount;
    Rates(Percent(wonCount, totalOpps), Percent(lostCount, totalOpps), Percent(totalOpps, leadCount + totalOpps))
  }

  /**
   * When the won opportunities are among the active ones (the won count
   * filters the active-opportunity domain further), won and lost together
   * never exceed 100 percent.
   */
  lemma WonAndLostAtMostAll(leadCount: nat, activeCount: nat, lostCount: nat, wonCount: nat)
    requires wonCount <= activeCount
    ensures RatesOf(leadCount, activeCount, lostCount, wonCount).won
          + RatesOf(leadCount, activeCount, lostCount, wonCount).lost <= 100.0
    ensures RatesOf(leadCount, activeCount, lostCount, wonCount).won <= 100.0
  {
    PercentAdds(wonCount, lostCount, activeCount + lostCount);
  }

  /** The worked example: 10 won of 15 active, 5 lost gives 50 and 25 percent. */
  lemma RatesExample()
    ensures RatesOf(0, 15, 5, 10).won == 50.0
    ensures RatesOf(0, 15, 5, 10).lost == 25.0
  {
  }
}
