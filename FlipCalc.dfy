/**
 The deal calculator of the Flip-Advisor house-flip app: a pure pipeline that
 turns the parameters of one purchase-rehab-resale deal into its costs,
 profit, returns, the 70%-rule maximum offer and a heuristic score.

 All amounts and ratios are exact reals; the month count is a natural number
 of at least one, the bound the input form enforces.
 */
module FlipCalc {
  import RealFacts

  /**
   Division with the app's zero policy: dividing by zero yields 0 rather
   than an error. (That a nonzero divisor gives the true quotient is the
   lemma SafeDivQuotient, kept out of this contract so that the calculator's
   proofs do not carry it everywhere.)
   */
  function SafeDiv(a: real, b: real): (q: real)
    ensures b == 0.0 ==> q == 0.0
  {
    if b != 0.0 then a / b else 0.0
  }

  /** A nonzero divisor gives the quotient: multiplying back recovers the dividend. */
  lemma SafeDivQuotient(a: real, b: real)
    requires b != 0.0
    ensures SafeDiv(a, b) * b == a
    ensures SafeDiv(a * b, b) == a
  {
  }

  /** The smaller of two reals (Python's two-argument `min`). */
  function Min(x: real, y: real): (r: real)
    ensures r <= x && r <= y
    ensures r == x || r == y
  {
    if y < x then y else x
  }

  /** The larger of two reals (Python's two-argument `max`). */
  function Max(x: real, y: real): (r: real)
    ensures r >= x && r >= y
    ensures r == x || r == y
  {
    if y > x then y else x
  }

  /** The 70% rule: offer at most this fraction of the after-repair value, less rehab. */
  const MaxOfferRatio: real := 0.70
  /** Weight of the profit margin (profit / ARV) in the deal score. */
  const MarginWeight: real := 400.0
  /** Weight of the speed factor in the deal score. */
  const SpeedWeight: real := 40.0
  /** Holding periods up to this many months earn the full speed factor. */
  const FastFlipMonths: nat := 6
  /** Upper bound of the deal score. */
  const MaxScore: real := 100.0

  /** The parameters of one deal, as the input form hands them to the calculator. */
  datatype DealInputs = DealInputs(
    purchasePrice: real,
    arv: real,               // after-repair value: the expected resale price
    rehabBudget: real,
    holdingMonths: nat,
    buyClosingPct: real,     // fractions: 0.03 means 3%
    sellClosingPct: real,
    annualTaxes: real,
    annualInsurance: real,
    monthlyUtilities: real,
    monthlyHoa: real,
    monthlyMisc: real,
    permitsAndFees: real,
    staging: real,
    useFinancing: bool,
    downPaymentPct: real,    // the last three matter only when useFinancing holds
    interestRateAnnual: real,
    pointsPct: real
  )

  /** The fourteen metrics the calculator derives from a deal. */
  datatype DealMetrics = DealMetrics(
    buyClosingCost: real,
    sellClosingCost: real,
    monthlyCarry: real,
    holdingCostTotal: real,
    loanAmount: real,
    downPayment: real,
    financingCostTotal: real,
    totalInvestment: real,
    netSaleProceeds: real,
    profit: real,
    roi: real,
    annualizedRoi: real,
    maxOffer70: real,
    score: real
  )

  // ---------------------------------------------------------------- cost side

  /**
   Closing costs on the purchase: the closing fraction of the price, so
   nothing negative on a non-negative price and fraction.
   */
  function BuyClosingCost(d: DealInputs): (r: real)
    ensures d.purchasePrice != 0.0 ==> r / d.purchasePrice == d.buyClosingPct
    ensures d.purchasePrice == 0.0 ==> r == 0.0
    ensures d.purchasePrice >= 0.0 && d.buyClosingPct >= 0.0 ==> r >= 0.0
  {
    d.purchasePrice * d.buyClosingPct
  }

  /**
   Closing costs on the resale: the closing fraction of the after-repair
   value, so nothing negative on a non-negative value and fraction.
   */
  function SellClosingCost(d: DealInputs): (r: real)
    ensures d.arv != 0.0 ==> r / d.arv == d.sellClosingPct
    ensures d.arv == 0.0 ==> r == 0.0
    ensures d.arv >= 0.0 && d.sellClosingPct >= 0.0 ==> r >= 0.0
  {
    d.arv * d.sellClosingPct
  }

  /**
   Recurring monthly ownership cost: taxes and insurance spread over twelve
   months plus the monthly bills. Twelve months of carry are a year's taxes
   and insurance plus twelve of each bill.
   */
  function MonthlyCarry(d: DealInputs): (c: real)
    ensures 12.0 * c == d.annualTaxes + d.annualInsurance
                        + 12.0 * (d.monthlyUtilities + d.monthlyHoa + d.monthlyMisc)
  {
    d.annualTaxes / 12.0 + d.annualInsurance / 12.0
    + d.monthlyUtilities + d.monthlyHoa + d.monthlyMisc
  }

  /**
   The carry over the whole holding period: each month costs a twelfth of a
   year's taxes and insurance plus one of each monthly bill, so a
   twelve-month hold costs a year's taxes and insurance plus twelve of each
   bill; never negative when the monthly carry is not.
   */
  function HoldingCostTotal(d: DealInputs): (r: real)
    ensures 12.0 * r == (d.holdingMonths as real)
                        * (d.annualTaxes + d.annualInsurance
                           + 12.0 * (d.monthlyUtilities + d.monthlyHoa + d.monthlyMisc))
    ensures MonthlyCarry(d) >= 0.0 ==> r >= 0.0
    ensures d.holdingMonths == 12 ==>
              r == d.annualTaxes + d.annualInsurance
                   + 12.0 * (d.monthlyUtilities + d.monthlyHoa + d.monthlyMisc)
  {
    var carry, months := MonthlyCarry(d), d.holdingMonths as real;
    RealFacts.MonthlyToTotal(carry, months,
      d.annualTaxes + d.annualInsurance + 12.0 * (d.monthlyUtilities + d.monthlyHoa + d.monthlyMisc));
    carry * months
  }

  /** The financing branch's three outputs. */
  datatype Financing = Financing(loanAmount: real, downPayment: real, financingCostTotal: real)

  /**
   With financing the buyer pays the down payment, borrows the rest (never a
   negative loan) and pays interest for the holding period plus points on the
   loan; without it the buyer pays the whole price and borrows nothing.
   */
  function FinancingTerms(d: DealInputs): (f: Financing)
    ensures f.loanAmount >= 0.0
    ensures f.loanAmount >= d.purchasePrice - f.downPayment
    ensures !d.useFinancing ==>
              f.loanAmount == 0.0 && f.financingCostTotal == 0.0 && f.downPayment == d.purchasePrice
  {
    if d.useFinancing then
      var downPayment := d.purchasePrice * d.downPaymentPct;
      var loanAmount := Max(d.purchasePrice - downPayment, 0.0);
      var monthlyInterestRate := d.interestRateAnnual / 12.0;
      var interestTotal := loanAmount * monthlyInterestRate * (d.holdingMonths as real);
      var pointsCost := loanAmount * d.pointsPct;
      Financing(loanAmount, downPayment, interestTotal + pointsCost)
    else
      Financing(0.0, d.purchasePrice, 0.0)
  }

  /**
   Everything put into the deal: the cash cost (price, closing, rehab, carry
   and the one-time extras) plus the financing cost, which a cash deal does
   not have.
   */
  function TotalInvestment(d: DealInputs): (r: real)
    ensures r - FinancingTerms(d).financingCostTotal
            == d.purchasePrice + BuyClosingCost(d) + d.rehabBudget + HoldingCostTotal(d)
               + d.permitsAndFees + d.staging
    ensures !d.useFinancing ==>
              r == d.purchasePrice + BuyClosingCost(d) + d.rehabBudget + HoldingCostTotal(d)
                   + d.permitsAndFees + d.staging
  {
    d.purchasePrice + BuyClosingCost(d) + d.rehabBudget + HoldingCostTotal(d)
    + FinancingTerms(d).financingCostTotal + d.permitsAndFees + d.staging
  }

  // ---------------------------------------------------------------- sale side and returns

  /** What the resale brings in after its closing costs: the share of the after-repair value the seller keeps. */
  function NetSaleProceeds(d: DealInputs): (r: real)
    ensures r == d.arv * (1.0 - d.sellClosingPct)
  {
    d.arv - SellClosingCost(d)
  }

  /** The after-repair value splits into the profit, the total investment and the sell closing costs. */
  function Profit(d: DealInputs): (r: real)
    ensures r + TotalInvestment(d) + SellClosingCost(d) == d.arv
  {
    NetSaleProceeds(d) - TotalInvestment(d)
  }

  /** Return on the total investment, 0 when nothing is invested. */
  function Roi(d: DealInputs): (r: real)
    ensures TotalInvestment(d) == 0.0 ==> r == 0.0
  {
    SafeDiv(Profit(d), TotalInvestment(d))
  }

  /**
   The ROI scaled to a twelve-month period: over the holding period it adds
   up to twelve months of ROI, so a twelve-month deal's is its ROI.
   */
  function AnnualizedRoi(d: DealInputs): (r: real)
    requires d.holdingMonths >= 1
    ensures r * (d.holdingMonths as real) == 12.0 * Roi(d)
    ensures d.holdingMonths == 12 ==> r == Roi(d)
  {
    RealFacts.ScaleByRatio(Roi(d), 12.0, d.holdingMonths as real);
    Roi(d) * (12.0 / (d.holdingMonths as real))
  }

  /**
   The 70%-rule maximum offer: with the rehab it uses up 70% of the
   after-repair value, so it is negative when rehab alone exceeds that.
   */
  function MaxOffer70(d: DealInputs): (r: real)
    ensures r + d.rehabBudget == MaxOfferRatio * d.arv
    ensures d.rehabBudget > MaxOfferRatio * d.arv ==> r < 0.0
  {
    d.arv * MaxOfferRatio - d.rehabBudget
  }

  // ---------------------------------------------------------------- deal score

  /** Profit as a fraction of the after-repair value, 0 when that value is 0. */
  function ProfitMargin(d: DealInputs): (pm: real)
    ensures d.arv == 0.0 ==> pm == 0.0
  {
    SafeDiv(Profit(d), d.arv)
  }

  /**
   Rewards fast flips: the full factor 1 up to six months, then shrinking in
   proportion to the holding period, with no floor.
   */
  function SpeedFactor(holdingMonths: nat): (f: real)
    requires holdingMonths >= 1
    ensures 0.0 < f <= 1.0
    ensures holdingMonths <= FastFlipMonths ==> f == 1.0
  {
    var ratio := (FastFlipMonths as real) / (holdingMonths as real);
    QuotientBounds(FastFlipMonths as real, holdingMonths as real);
    Min(1.0, ratio)
  }

  /** Dividing a positive amount by a positive one is positive, and at least 1 when the divisor is no larger. */
  lemma QuotientBounds(k: real, h: real)
    requires k > 0.0 && h > 0.0
    ensures k / h > 0.0
    ensures h <= k ==> k / h >= 1.0
    ensures h > k ==> k / h < 1.0
  {
    var q := k / h;
    assert q * h == k;
  }

  /** Past six months the speed factor is inversely proportional to the holding period. */
  lemma SpeedFactorBeyondFastFlip(holdingMonths: nat)
    requires holdingMonths > FastFlipMonths
    ensures SpeedFactor(holdingMonths) * (holdingMonths as real) == FastFlipMonths as real
    ensures SpeedFactor(holdingMonths) < 1.0
  {
    var ratio := (FastFlipMonths as real) / (holdingMonths as real);
    assert ratio * (holdingMonths as real) == FastFlipMonths as real;
  }

  /**
   Weighted margin plus weighted speed, clamped to [0, 100]: the weighted sum
   itself when it lies in that range, otherwise the nearer end.
   */
  function Score(profitMargin: real, speedFactor: real): (s: real)
    ensures 0.0 <= s <= MaxScore
    ensures 0.0 <= MarginWeight * profitMargin + SpeedWeight * speedFactor <= MaxScore
            ==> s == MarginWeight * profitMargin + SpeedWeight * speedFactor
    ensures MarginWeight * profitMargin + SpeedWeight * speedFactor >= MaxScore ==> s == MaxScore
    ensures MarginWeight * profitMargin + SpeedWeight * speedFactor <= 0.0 ==> s == 0.0
  {
    Max(0.0, Min(MaxScore, profitMargin * MarginWeight + speedFactor * SpeedWeight))
  }

  /** The deal's score from its margin and its holding period. */
  function DealScore(d: DealInputs): (s: real)
    requires d.holdingMonths >= 1
    ensures 0.0 <= s <= MaxScore
  {
    Score(ProfitMargin(d), SpeedFactor(d.holdingMonths))
  }

  // ---------------------------------------------------------------- the calculator

  /** The deal calculator: all fourteen metrics of a deal. */
  function Calculate(d: DealInputs): (m: DealMetrics)
    requires d.holdingMonths >= 1
    // the cost side
    ensures m.totalInvestment == d.purchasePrice + m.buyClosingCost + d.rehabBudget
                                 + m.holdingCostTotal + m.financingCostTotal
                                 + d.permitsAndFees + d.staging
    // the sale side
    ensures m.netSaleProceeds == d.arv - m.sellClosingCost
    ensures m.profit == m.netSaleProceeds - m.totalInvestment
    // the zero-division policy for the ROI
    ensures m.totalInvestment == 0.0 ==> m.roi == 0.0
    // the financing toggle
    ensures m.loanAmount >= 0.0
    ensures !d.useFinancing ==>
              m.loanAmount == 0.0 && m.financingCostTotal == 0.0 && m.downPayment == d.purchasePrice
    // the score is bounded
    ensures 0.0 <= m.score <= MaxScore
  {
    var fin := FinancingTerms(d);
    DealMetrics(
      BuyClosingCost(d), SellClosingCost(d), MonthlyCarry(d), HoldingCostTotal(d),
      fin.loanAmount, fin.downPayment, fin.financingCostTotal,
      TotalInvestment(d), NetSaleProceeds(d), Profit(d), Roi(d), AnnualizedRoi(d),
      MaxOffer70(d), DealScore(d))
  }

  /**
   The ranges the input form enforces on its widgets: amounts at least 0,
   closing costs and points at most 20%, down payment and interest rate
   fractions in [0, 1], at least one month.
   */
  predicate WithinInputRanges(d: DealInputs) {
    && d.purchasePrice >= 0.0 && d.arv >= 0.0 && d.rehabBudget >= 0.0
    && d.holdingMonths >= 1
    && 0.0 <= d.buyClosingPct <= 0.2 && 0.0 <= d.sellClosingPct <= 0.2
    && d.annualTaxes >= 0.0 && d.annualInsurance >= 0.0
    && d.monthlyUtilities >= 0.0 && d.monthlyHoa >= 0.0 && d.monthlyMisc >= 0.0
    && d.permitsAndFees >= 0.0 && d.staging >= 0.0
    && 0.0 <= d.downPaymentPct <= 1.0
    && 0.0 <= d.interestRateAnnual <= 1.0
    && 0.0 <= d.pointsPct <= 0.2
  }
}
