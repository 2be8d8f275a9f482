/**
 Properties of the deal calculator: the financing toggle, the zero-division
 policy at each division site, bounds under the input form's ranges, how the
 metrics move when one input moves, and two worked deals.

 Lemmas that compare two deals are stated on the per-metric functions that
 `Calculate` assembles (`Calculate(d).profit` is `Profit(d)`, and so on).
 */
module DealProperties {
  import opened FlipCalc
  import opened RealFacts

  /** A deal with the given purchase price, everything else unchanged. */
  function AtPrice(d: DealInputs, price: real): DealInputs {
    d.(purchasePrice := price)
  }

  /** A deal with the given holding period, everything else unchanged. */
  function ForMonths(d: DealInputs, months: nat): DealInputs {
    d.(holdingMonths := months)
  }

  /** The same deal paid in cash. */
  function InCash(d: DealInputs): DealInputs {
    d.(useFinancing := false)
  }

  // ---------------------------------------------------------------- financing

  /** With financing off, the down-payment, rate and points fields change nothing. */
  lemma FinancingFieldsIgnoredWhenOff(d: DealInputs, downPct: real, rate: real, points: real)
    requires d.holdingMonths >= 1 && !d.useFinancing
    ensures Calculate(d.(downPaymentPct := downPct, interestRateAnnual := rate, pointsPct := points))
            == Calculate(d)
  {
    var d' := d.(downPaymentPct := downPct, interestRateAnnual := rate, pointsPct := points);
    SameMetricsFromSameCosts(d', d);
  }

  /**
   With financing on, a down-payment fraction in [0, 1] and a non-negative
   price, the down payment and the loan together make up the price.
   */
  lemma FinancedPriceSplit(d: DealInputs)
    requires d.useFinancing
    requires 0.0 <= d.downPaymentPct <= 1.0 && d.purchasePrice >= 0.0
    ensures FinancingTerms(d).downPayment == d.purchasePrice * d.downPaymentPct
    ensures FinancingTerms(d).downPayment + FinancingTerms(d).loanAmount == d.purchasePrice
    ensures FinancingTerms(d).loanAmount == d.purchasePrice * (1.0 - d.downPaymentPct)
  {
    ShareBounds(d.purchasePrice, d.downPaymentPct, 1.0, d.purchasePrice * d.downPaymentPct);
  }

  /**
   With financing on, the financing cost is the loan times the interest rate
   for the holding period plus the points.
   */
  lemma FinancingCostFormula(d: DealInputs)
    requires d.useFinancing
    ensures FinancingTerms(d).financingCostTotal
            == FinancingTerms(d).loanAmount
               * (d.interestRateAnnual / 12.0 * (d.holdingMonths as real) + d.pointsPct)
  {
  }

  /**
   The financing branch as the calculator reports it: with financing on the
   loan is never negative, the financing cost is the loan times the interest
   for the holding period plus the points, and for a down-payment fraction in
   [0, 1] on a non-negative price the down payment and the loan add up to
   the price.
   */
  lemma FinancedDeal(d: DealInputs)
    requires d.holdingMonths >= 1 && d.useFinancing
    ensures Calculate(d).loanAmount >= 0.0
    ensures Calculate(d).downPayment == d.purchasePrice * d.downPaymentPct
    ensures Calculate(d).financingCostTotal
            == Calculate(d).loanAmount
               * (d.interestRateAnnual / 12.0 * (d.holdingMonths as real) + d.pointsPct)
    ensures 0.0 <= d.downPaymentPct <= 1.0 && d.purchasePrice >= 0.0 ==>
              Calculate(d).downPayment + Calculate(d).loanAmount == d.purchasePrice
  {
    FinancingCostFormula(d);
    if 0.0 <= d.downPaymentPct <= 1.0 && d.purchasePrice >= 0.0 {
      FinancedPriceSplit(d);
    }
  }

  /** Financing with a 100% down payment is the same deal as paying cash. */
  lemma FullDownPaymentIsCash(d: DealInputs)
    requires d.holdingMonths >= 1 && d.useFinancing && d.downPaymentPct == 1.0
    ensures Calculate(d) == Calculate(InCash(d))
  {
    var cash := InCash(d);
    assert d.purchasePrice * d.downPaymentPct == d.purchasePrice;
    assert FinancingTerms(d) == FinancingTerms(cash);
    SameMetricsFromSameCosts(d, cash);
  }

  /**
   Two deals that agree on every field the calculator reads, apart from the
   financing fields, and on the financing branch's outcome, get the same metrics.
   */
  lemma SameMetricsFromSameCosts(d1: DealInputs, d2: DealInputs)
    requires d1.holdingMonths >= 1
    requires d1.(useFinancing := false, downPaymentPct := 0.0, interestRateAnnual := 0.0, pointsPct := 0.0)
             == d2.(useFinancing := false, downPaymentPct := 0.0, interestRateAnnual := 0.0, pointsPct := 0.0)
    requires FinancingTerms(d1) == FinancingTerms(d2)
    ensures Calculate(d1) == Calculate(d2)
  {
    assert MonthlyCarry(d1) == MonthlyCarry(d2);
    assert BuyClosingCost(d1) == BuyClosingCost(d2);
    assert SellClosingCost(d1) == SellClosingCost(d2);
    assert HoldingCostTotal(d1) == HoldingCostTotal(d2);
    assert TotalInvestment(d1) == TotalInvestment(d2);
    assert Profit(d1) == Profit(d2);
    assert Roi(d1) == Roi(d2);
    assert AnnualizedRoi(d1) == AnnualizedRoi(d2);
    assert MaxOffer70(d1) == MaxOffer70(d2);
    assert DealScore(d1) == DealScore(d2);
  }

  /** Under the form's ranges the loan and down payment lie within the price and financing costs nothing negative. */
  lemma FinancingCostBounds(d: DealInputs)
    requires WithinInputRanges(d)
    ensures 0.0 <= FinancingTerms(d).loanAmount <= d.purchasePrice
    ensures 0.0 <= FinancingTerms(d).downPayment <= d.purchasePrice
    ensures FinancingTerms(d).financingCostTotal >= 0.0
  {
    if d.useFinancing {
      var fin := FinancingTerms(d);
      FinancedPriceSplit(d);
      FinancingCostFormula(d);
      ShareBounds(d.purchasePrice, d.downPaymentPct, 1.0, fin.downPayment);
      var rate := d.interestRateAnnual / 12.0 * (d.holdingMonths as real) + d.pointsPct;
      assert rate >= 0.0;
      ProductNonNegative(fin.loanAmount, rate, fin.financingCostTotal);
    }
  }

  /**
   Within the form's ranges, turning financing on adds a non-negative cost:
   the total investment can only grow and the profit and the ROI can only
   shrink. (The ROI is measured against the full total investment, never
   against the cash put down, so leverage never improves it.)
   */
  lemma FinancingNeverHelps(d: DealInputs)
    requires WithinInputRanges(d) && d.useFinancing
    ensures TotalInvestment(d) >= TotalInvestment(InCash(d))
    ensures Profit(d) <= Profit(InCash(d))
    ensures Roi(d) <= Roi(InCash(d))
  {
    var cash := InCash(d);
    FinancingCostBounds(d);
    assert MonthlyCarry(d) == MonthlyCarry(cash);
    var f := FinancingTerms(d).financingCostTotal;
    var t, p := TotalInvestment(cash), Profit(cash);
    assert TotalInvestment(d) == t + f;
    assert Profit(d) == p - f;
    SaleSideBounds(cash);
    InvestmentAtLeastPriceAndRehab(cash);
    if t == 0.0 {
      assert d.purchasePrice == 0.0;
      assert f == 0.0;
    } else {
      RatioShift(p, t, f);
    }
  }

  // ---------------------------------------------------------------- division sites

  /**
   The ROI is the profit per unit invested (0 when nothing is invested), and
   annualising scales it by 12 / months, so a twelve-month deal's annualised
   ROI is its ROI and a six-month deal's is twice it.
   */
  lemma ReturnsDefinition(d: DealInputs)
    requires d.holdingMonths >= 1
    ensures TotalInvestment(d) == 0.0 ==> Roi(d) == 0.0
    ensures TotalInvestment(d) != 0.0 ==> Roi(d) * TotalInvestment(d) == Profit(d)
    ensures AnnualizedRoi(d) * (d.holdingMonths as real) == 12.0 * Roi(d)
    ensures d.holdingMonths == 12 ==> AnnualizedRoi(d) == Roi(d)
    ensures d.holdingMonths == 6 ==> AnnualizedRoi(d) == 2.0 * Roi(d)
  {
    if TotalInvestment(d) != 0.0 {
      SafeDivQuotient(Profit(d), TotalInvestment(d));
    }
    ScaleByRatio(Roi(d), 12.0, d.holdingMonths as real);
  }

  /** The ROI has the sign of the profit whenever money is invested. */
  lemma RoiSignFollowsProfit(d: DealInputs)
    requires TotalInvestment(d) > 0.0
    ensures Roi(d) > 0.0 <==> Profit(d) > 0.0
    ensures Roi(d) == 0.0 <==> Profit(d) == 0.0
    ensures Roi(d) < 0.0 <==> Profit(d) < 0.0
  {
    QuotientSign(Profit(d), TotalInvestment(d));
  }

  /** Without an after-repair value the margin term is 0 and only speed scores. */
  lemma ScoreWithoutArv(d: DealInputs)
    requires d.holdingMonths >= 1 && d.arv == 0.0
    ensures DealScore(d) == SpeedWeight * SpeedFactor(d.holdingMonths)
  {
  }

  /** A margin of 25% or more alone reaches the ceiling of 100. */
  lemma ScoreSaturates(d: DealInputs)
    requires d.holdingMonths >= 1 && d.arv > 0.0
    requires Profit(d) >= 0.25 * d.arv
    ensures DealScore(d) == MaxScore
  {
    QuotientAtLeast(Profit(d), d.arv, 0.25);
  }

  /** A loss of at least 10% of the after-repair value drives the score to 0. */
  lemma ScoreBottomsOut(d: DealInputs)
    requires d.holdingMonths >= 1 && d.arv > 0.0
    requires Profit(d) <= -0.1 * d.arv
    ensures DealScore(d) == 0.0
  {
    QuotientAtMost(Profit(d), d.arv, -0.1);
  }

  // ---------------------------------------------------------------- bounds

  /** Within the form's ranges the sale nets between 80% and 100% of the after-repair value. */
  lemma SaleSideBounds(d: DealInputs)
    requires WithinInputRanges(d)
    ensures 0.0 <= SellClosingCost(d) <= 0.2 * d.arv
    ensures 0.8 * d.arv <= NetSaleProceeds(d) <= d.arv
  {
    ShareBounds(d.arv, d.sellClosingPct, 0.2, SellClosingCost(d));
  }

  /** Within the form's ranges every cost is non-negative, so the investment is at least price plus rehab. */
  lemma InvestmentAtLeastPriceAndRehab(d: DealInputs)
    requires WithinInputRanges(d)
    ensures 0.0 <= BuyClosingCost(d) <= 0.2 * d.purchasePrice
    ensures MonthlyCarry(d) >= 0.0 && HoldingCostTotal(d) >= 0.0
    ensures TotalInvestment(d) >= d.purchasePrice + d.rehabBudget
  {
    ShareBounds(d.purchasePrice, d.buyClosingPct, 0.2, BuyClosingCost(d));
    ProductNonNegative(MonthlyCarry(d), d.holdingMonths as real, HoldingCostTotal(d));
    FinancingCostBounds(d);
  }

  /** Within the form's ranges a deal can lose at most everything invested. */
  lemma RoiAtLeastMinusOne(d: DealInputs)
    requires WithinInputRanges(d) && TotalInvestment(d) > 0.0
    ensures Profit(d) >= -TotalInvestment(d)
    ensures Roi(d) >= -1.0
  {
    SaleSideBounds(d);
    QuotientAtLeast(Profit(d), TotalInvestment(d), -1.0);
  }

  // ---------------------------------------------------------------- sensitivity

  /** The speed factor never rises with a longer hold, and falls strictly past six months. */
  lemma SpeedFactorAntitone(m1: nat, m2: nat)
    requires 1 <= m1 <= m2
    ensures SpeedFactor(m2) <= SpeedFactor(m1)
    ensures m1 > FastFlipMonths && m1 < m2 ==> SpeedFactor(m2) < SpeedFactor(m1)
  {
    if m1 > FastFlipMonths && m1 < m2 {
      SpeedFactorBeyondFastFlip(m1);
      SpeedFactorBeyondFastFlip(m2);
      InverseProportionStrict(SpeedFactor(m1), m1 as real, SpeedFactor(m2), m2 as real, 6.0);
    }
  }

  /** The speed factor at three, six, twelve and twenty-four months. */
  lemma SpeedFactorExamples()
    ensures SpeedFactor(3) == 1.0 && SpeedFactor(6) == 1.0
    ensures SpeedFactor(12) == 0.5 && SpeedFactor(24) == 0.25
  {
  }

  /** Within the form's ranges, a higher price never lowers the financing cost. */
  lemma FinancingCostMonotoneInPrice(d: DealInputs, p1: real, p2: real)
    requires WithinInputRanges(d) && 0.0 <= p1 <= p2
    ensures FinancingTerms(AtPrice(d, p1)).financingCostTotal
            <= FinancingTerms(AtPrice(d, p2)).financingCostTotal
  {
    if d.useFinancing {
      var f1, f2 := FinancingTerms(AtPrice(d, p1)), FinancingTerms(AtPrice(d, p2));
      var keep := 1.0 - d.downPaymentPct;
      FinancedPriceSplit(AtPrice(d, p1));
      FinancedPriceSplit(AtPrice(d, p2));
      FinancingCostFormula(AtPrice(d, p1));
      FinancingCostFormula(AtPrice(d, p2));
      ProductsOrdered(keep, p1, p2, f1.loanAmount, f2.loanAmount);
      var rate := d.interestRateAnnual / 12.0 * (d.holdingMonths as real) + d.pointsPct;
      assert rate >= 0.0;
      ProductsOrdered(rate, f1.loanAmount, f2.loanAmount, f1.financingCostTotal, f2.financingCostTotal);
    }
  }

  /**
   Within the form's ranges, paying more for the same property never lowers
   the total investment and never raises the profit.
   */
  lemma ProfitAntitoneInPrice(d: DealInputs, p1: real, p2: real)
    requires WithinInputRanges(d) && 0.0 <= p1 <= p2
    ensures TotalInvestment(AtPrice(d, p2)) >= TotalInvestment(AtPrice(d, p1))
    ensures Profit(AtPrice(d, p2)) <= Profit(AtPrice(d, p1))
  {
    var d1, d2 := AtPrice(d, p1), AtPrice(d, p2);
    assert HoldingCostTotal(d1) == HoldingCostTotal(d2) by {
      assert MonthlyCarry(d1) == MonthlyCarry(d2);
    }
    MulMonotone(d.buyClosingPct, p1, p2);
    assert BuyClosingCost(d1) <= BuyClosingCost(d2);
    FinancingCostMonotoneInPrice(d, p1, p2);
    assert NetSaleProceeds(d1) == NetSaleProceeds(d2);
  }

  /** Within the form's ranges, a longer hold never lowers the financing cost. */
  lemma FinancingCostMonotoneInMonths(d: DealInputs, m1: nat, m2: nat)
    requires WithinInputRanges(d) && 1 <= m1 <= m2
    ensures FinancingTerms(ForMonths(d, m1)).financingCostTotal
            <= FinancingTerms(ForMonths(d, m2)).financingCostTotal
  {
    if d.useFinancing {
      var f1, f2 := FinancingTerms(ForMonths(d, m1)), FinancingTerms(ForMonths(d, m2));
      var loan := f1.loanAmount;
      assert f2.loanAmount == loan;
      var monthly := d.interestRateAnnual / 12.0;
      assert loan >= 0.0 && monthly >= 0.0;
      FinancingCostFormula(ForMonths(d, m1));
      FinancingCostFormula(ForMonths(d, m2));
      CostOverLongerPeriod(loan, monthly, d.pointsPct, m1 as real, m2 as real,
                           f1.financingCostTotal, f2.financingCostTotal);
    }
  }

  /** Within the form's ranges, a longer hold never lowers the holding cost. */
  lemma HoldingCostMonotoneInMonths(d: DealInputs, m1: nat, m2: nat)
    requires WithinInputRanges(d) && m1 <= m2
    ensures HoldingCostTotal(ForMonths(d, m1)) <= HoldingCostTotal(ForMonths(d, m2))
  {
    var carry := MonthlyCarry(d);
    assert MonthlyCarry(ForMonths(d, m1)) == carry && MonthlyCarry(ForMonths(d, m2)) == carry;
    assert carry >= 0.0;
    assert HoldingCostTotal(ForMonths(d, m1)) == carry * (m1 as real);
    assert HoldingCostTotal(ForMonths(d, m2)) == carry * (m2 as real);
    MulMonotone(carry, m1 as real, m2 as real);
  }

  /**
   Within the form's ranges, holding longer never lowers the total
   investment and never raises the profit or the deal score.
   */
  lemma LongerHoldNeverHelps(d: DealInputs, m1: nat, m2: nat)
    requires WithinInputRanges(d) && 1 <= m1 <= m2
    ensures TotalInvestment(ForMonths(d, m2)) >= TotalInvestment(ForMonths(d, m1))
    ensures Profit(ForMonths(d, m2)) <= Profit(ForMonths(d, m1))
    ensures DealScore(ForMonths(d, m2)) <= DealScore(ForMonths(d, m1))
  {
    var d1, d2 := ForMonths(d, m1), ForMonths(d, m2);
    HoldingCostMonotoneInMonths(d, m1, m2);
    FinancingCostMonotoneInMonths(d, m1, m2);
    assert BuyClosingCost(d1) == BuyClosingCost(d2);
    assert NetSaleProceeds(d1) == NetSaleProceeds(d2);
    assert Profit(d2) <= Profit(d1);
    SafeDivMonotone(Profit(d2), Profit(d1), d.arv);
    SpeedFactorAntitone(m1, m2);
    ScoreMonotone(ProfitMargin(d2), SpeedFactor(m2), ProfitMargin(d1), SpeedFactor(m1));
  }

  /** The zero-safe quotient by a non-negative divisor never rises with a lower dividend. */
  lemma SafeDivMonotone(lower: real, higher: real, divisor: real)
    requires lower <= higher && divisor >= 0.0
    ensures SafeDiv(lower, divisor) <= SafeDiv(higher, divisor)
  {
    if divisor > 0.0 {
      DivideBoth(lower, divisor, higher, divisor);
    }
  }

  /** The clamped score is monotone in both of its terms. */
  lemma ScoreMonotone(pm1: real, s1: real, pm2: real, s2: real)
    requires pm1 <= pm2 && s1 <= s2
    ensures Score(pm1, s1) <= Score(pm2, s2)
  {
  }

  // ---------------------------------------------------------------- worked deals

  /** The form's default deal, paid in cash over six months. */
  function ScenarioA(): DealInputs {
    DealInputs(
      150000.0, 260000.0, 40000.0, 6,
      0.03, 0.06,
      3000.0, 1500.0,
      400.0, 0.0, 0.0,
      0.0, 0.0,
      false, 0.20, 0.10, 0.02)
  }

  /** The default deal's metrics; its margin of about 17% plus full speed saturates the score. */
  lemma ScenarioAMetrics()
    ensures var m := Calculate(ScenarioA());
            && m.buyClosingCost == 4500.0 && m.sellClosingCost == 15600.0
            && m.monthlyCarry == 775.0 && m.holdingCostTotal == 4650.0
            && m.loanAmount == 0.0 && m.downPayment == 150000.0 && m.financingCostTotal == 0.0
            && m.totalInvestment == 199150.0 && m.netSaleProceeds == 244400.0
            && m.profit == 45250.0
            && m.roi == 45250.0 / 199150.0 && m.annualizedRoi == 90500.0 / 199150.0
            && m.maxOffer70 == 142000.0
            && m.score == 100.0
  {
  }

  /** The same deal held for twelve months: twice the carry, annualised ROI equal to ROI, half the speed. */
  lemma ScenarioBMetrics()
    ensures var m := Calculate(ForMonths(ScenarioA(), 12));
            && m.holdingCostTotal == 9300.0
            && m.totalInvestment == 203800.0 && m.profit == 40600.0
            && m.roi == 40600.0 / 203800.0 && m.annualizedRoi == m.roi
            && m.score == 40600.0 * 400.0 / 260000.0 + 20.0
  {
    var b := ForMonths(ScenarioA(), 12);
    assert Profit(b) == 40600.0;
    assert SpeedFactor(12) == 0.5;
    assert ProfitMargin(b) == 40600.0 / 260000.0;
  }
}
