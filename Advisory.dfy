/**
 The advisory flags shown beside a deal's metrics: the 70%-rule check on the
 price, whether the deal makes a profit, and a holding-period band. Each is a
 comparison on the inputs and on the calculator's metrics; how a flag is
 displayed is not modelled.
 */
module Advisory {
  import opened FlipCalc
  import DealProperties

  /** Holding periods longer than this many months draw the long-hold caution. */
  const LongHoldMonths: nat := 9

  datatype OfferFlag = AboveMaxOffer | WithinMaxOffer
  datatype ProfitFlag = ProfitNotPositive | ProfitPositive
  datatype HoldingFlag = LongHold | FastFlip | NoHoldingFlag

  /** The three flags of one deal. */
  datatype Advice = Advice(offer: OfferFlag, profit: ProfitFlag, holding: HoldingFlag)

  /** The price is flagged only when it is strictly above the 70%-rule offer. */
  function OfferCheck(purchasePrice: real, maxOffer70: real): (f: OfferFlag)
    ensures f == WithinMaxOffer <==> purchasePrice <= maxOffer70
  {
    if purchasePrice > maxOffer70 then AboveMaxOffer else WithinMaxOffer
  }

  /** A profit of exactly 0 already draws the warning. */
  function ProfitCheck(profit: real): (f: ProfitFlag)
    ensures f == ProfitPositive <==> profit > 0.0
  {
    if profit <= 0.0 then ProfitNotPositive else ProfitPositive
  }

  /**
   Caution past nine months, a fast flip up to six, and no flag for seven
   to nine months: the three bands cover every period and do not overlap.
   */
  function HoldingBand(holdingMonths: nat): (f: HoldingFlag)
    ensures f == LongHold <==> holdingMonths > LongHoldMonths
    ensures f == FastFlip <==> holdingMonths <= FastFlipMonths
    ensures f == NoHoldingFlag <==> FastFlipMonths < holdingMonths <= LongHoldMonths
  {
    if holdingMonths > LongHoldMonths then LongHold
    else if holdingMonths <= FastFlipMonths then FastFlip
    else NoHoldingFlag
  }

  /** The flags for a deal and the metrics computed for it. */
  function Advise(d: DealInputs, m: DealMetrics): (a: Advice)
    ensures a.offer == WithinMaxOffer <==> d.purchasePrice <= m.maxOffer70
    ensures a.profit == ProfitPositive <==> m.profit > 0.0
    ensures a.holding == LongHold <==> d.holdingMonths > LongHoldMonths
    ensures a.holding == FastFlip <==> d.holdingMonths <= FastFlipMonths
  {
    Advice(
      OfferCheck(d.purchasePrice, m.maxOffer70),
      ProfitCheck(m.profit),
      HoldingBand(d.holdingMonths))
  }

  /**
   The flags the app shows for a deal: the price against the deal's 70%-rule
   offer, the sign of its profit, and its holding-period band.
   */
  function AdviceFor(d: DealInputs): (a: Advice)
    requires d.holdingMonths >= 1
    ensures a.offer == WithinMaxOffer <==> d.purchasePrice <= MaxOffer70(d)
    ensures a.profit == ProfitPositive <==> Profit(d) > 0.0
    ensures a.holding == LongHold <==> d.holdingMonths > LongHoldMonths
    ensures a.holding == FastFlip <==> d.holdingMonths <= FastFlipMonths
    ensures a.holding == NoHoldingFlag <==> FastFlipMonths < d.holdingMonths <= LongHoldMonths
  {
    Advise(d, Calculate(d))
  }

  /**
   On a calculated deal, the price passes the 70% rule exactly when price
   plus rehab is at most 70% of the after-repair value; a price equal to the
   maximum offer passes.
   */
  lemma OfferFlagOnDeal(d: DealInputs)
    requires d.holdingMonths >= 1
    ensures AdviceFor(d).offer == WithinMaxOffer
            <==> d.purchasePrice + d.rehabBudget <= MaxOfferRatio * d.arv
    ensures d.purchasePrice == MaxOffer70(d) ==> AdviceFor(d).offer == WithinMaxOffer
  {
    assert Calculate(d).maxOffer70 == MaxOffer70(d);
  }

  /**
   On a calculated deal, the profit flag is positive exactly when the net sale
   proceeds exceed the total investment, and, when anything is invested,
   exactly when the ROI is positive.
   */
  lemma ProfitFlagOnDeal(d: DealInputs)
    requires d.holdingMonths >= 1
    ensures AdviceFor(d).profit == ProfitPositive <==> NetSaleProceeds(d) > TotalInvestment(d)
    ensures TotalInvestment(d) > 0.0 ==> (AdviceFor(d).profit == ProfitPositive <==> Roi(d) > 0.0)
  {
    assert Calculate(d).profit == Profit(d);
    if TotalInvestment(d) > 0.0 {
      DealProperties.RoiSignFollowsProfit(d);
    }
  }

  /**
   The fast-flip band is exactly where the score's speed factor is full, and
   the long-hold band is where it has dropped below three quarters.
   */
  lemma HoldingFlagMatchesSpeedFactor(holdingMonths: nat)
    requires holdingMonths >= 1
    ensures HoldingBand(holdingMonths) == FastFlip <==> SpeedFactor(holdingMonths) == 1.0
    ensures HoldingBand(holdingMonths) == LongHold ==> SpeedFactor(holdingMonths) < 0.75
  {
    if holdingMonths > FastFlipMonths {
      SpeedFactorBeyondFastFlip(holdingMonths);
    }
    if holdingMonths > LongHoldMonths {
      DealProperties.SpeedFactorAntitone(8, holdingMonths);
      assert SpeedFactor(8) == 0.75;
    }
  }

  /**
   The default deal is profitable and a fast flip, yet its price of 150000 is
   above the 70%-rule offer of 142000, so it draws the offer warning.
   */
  lemma ScenarioAAdvice()
    ensures AdviceFor(DealProperties.ScenarioA()) == Advice(AboveMaxOffer, ProfitPositive, FastFlip)
  {
    var d := DealProperties.ScenarioA();
    DealProperties.ScenarioAMetrics();
    var m := Calculate(d);
    assert d.purchasePrice > m.maxOffer70 && m.profit > 0.0 && d.holdingMonths <= FastFlipMonths;
    assert AdviceFor(d) == Advise(d, m);
  }
}
