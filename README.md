# Flip-Advisor deal calculator

A Dafny model of the deal calculator of Flip-Advisor, a single-screen
calculator for house-flip deals. Given the parameters of one deal (purchase
price, after-repair value, rehab budget, holding period, closing-cost
fractions, taxes, insurance and monthly bills, one-time extras and an
optional loan), the calculator derives fourteen metrics: closing costs,
monthly carry and total holding cost, loan, down payment and financing cost,
total investment, net sale proceeds, profit, ROI, annualised ROI, the
70%-rule maximum offer and a deal score clamped to [0, 100]. Beside the
metrics the app shows three advisory flags: price against the 70%-rule
offer, whether the profit is positive, and a holding-period band.

The calculator is a pure formula pipeline, so the model is functions and
lemmas:

- `FlipCalc.dfy` (module `FlipCalc`): the zero-safe division `SafeDiv`, the
  `DealInputs` and `DealMetrics` records, one function per derived metric,
  and `Calculate`, which assembles them.
- `DealProperties.dfy` (module `DealProperties`): the financing toggle, the
  zero-division policy at each division site, bounds under the input form's
  ranges, how the metrics move when the price or the holding period moves,
  and the two worked deals (the form's defaults over six and twelve months).
- `Advisory.dfy` (module `Advisory`): the three flags as a classifier over a
  deal and its metrics.
- `RealFacts.dfy` (module `RealFacts`): small facts of real arithmetic used
  by the proofs.

Amounts and ratios are exact `real`s; the literals `0.70`, `12.0`, `400.0`,
`40.0`, `6.0` and `100.0` are read as exact rationals. The holding period is a
`nat` of at least one, the bound the input form puts on it
(`flip_app.py:101`, cast with `int(...)` at `flip_app.py:137`).

The calculator itself accepts any numbers. Where a property only holds for
the ranges the input form enforces (amounts at least 0, closing fractions
and points in [0, 0.2], down-payment and rate fractions in [0, 1]), the lemma
takes the predicate `WithinInputRanges` as a hypothesis.

The maximum offer `max_offer_70 = 0.7 * arv - rehab` (`flip_app.py:67`) is
negative whenever rehab exceeds 70% of the after-repair value
(`FlipCalc.MaxOffer70`); the model keeps that
value as the code computes it.

## Model

| member | source | states |
|---|---|---|
| FlipCalc.SafeDiv | flip_app.py:5-6 | a zero divisor gives exactly 0 |
| FlipCalc.SafeDivQuotient | flip_app.py:5-6 | a nonzero divisor gives the true quotient: multiplying back recovers the dividend |
| FlipCalc.Min | flip_app.py:72 | Python's two-argument `min`: at most both arguments and equal to one of them |
| FlipCalc.Max | flip_app.py:43 | Python's two-argument `max`: at least both arguments and equal to one of them |
| FlipCalc.MonthlyCarry | flip_app.py:25-34 | twelve months of carry are a year's taxes and insurance plus twelve months of utilities, HOA and misc |
| FlipCalc.BuyClosingCost | flip_app.py:22 | the buy closing cost is the closing fraction of the price, 0 on a zero price, and non-negative for a non-negative price and fraction |
| FlipCalc.SellClosingCost | flip_app.py:23 | the sell closing cost is the closing fraction of the after-repair value, 0 on a zero value, and non-negative for a non-negative value and fraction |
| FlipCalc.HoldingCostTotal | flip_app.py:35 | twelve times the holding cost is the months times a year's taxes and insurance plus twelve of each monthly bill, for every hold; non-negative when the monthly carry is; a twelve-month hold costs a year's taxes and insurance plus twelve of each monthly bill |
| FlipCalc.FinancingTerms | flip_app.py:37-49 | the loan is never negative and covers at least the price less the down payment; with financing off the loan and financing cost are 0 and the down payment is the whole price |
| FlipCalc.TotalInvestment | flip_app.py:51-59 | the investment less the financing cost is the cash cost (price, buy closing, rehab, holding cost, permits, staging); a cash deal's investment is exactly that cash cost |
| FlipCalc.NetSaleProceeds | flip_app.py:61 | the net proceeds are the after-repair value times one minus the sell closing fraction |
| FlipCalc.Profit | flip_app.py:62 | profit, total investment and sell closing cost add up to the after-repair value |
| FlipCalc.Roi | flip_app.py:64 | the ROI is 0 when the total investment is 0 |
| FlipCalc.AnnualizedRoi | flip_app.py:65 | the annualised ROI times the months is twelve times the ROI, so a twelve-month deal's annualised ROI is its ROI |
| FlipCalc.MaxOffer70 | flip_app.py:67 | the maximum offer plus rehab is 70% of the after-repair value, so the offer is negative when rehab exceeds that |
| FlipCalc.ProfitMargin | flip_app.py:71 | the profit margin is 0 when the after-repair value is 0 |
| FlipCalc.SpeedFactor | flip_app.py:72 | the speed factor lies in (0, 1] and is exactly 1 for holds of six months or less |
| FlipCalc.SpeedFactorBeyondFastFlip | flip_app.py:72 | past six months the speed factor times the months is 6, and it is below 1 |
| FlipCalc.Score | flip_app.py:73 | the score lies in [0, 100]; it is the weighted sum when that is in range, 100 above and 0 below |
| FlipCalc.DealScore | flip_app.py:71-73 | a deal's score lies in [0, 100] |
| FlipCalc.Calculate | flip_app.py:14-90 | total investment is the sum of its seven parts; net proceeds are ARV less sell closing; profit is proceeds less investment; ROI is 0 with nothing invested; the loan is never negative; with financing off loan and financing cost are 0 and the down payment is the price; the score lies in [0, 100] |
| DealProperties.FinancingFieldsIgnoredWhenOff | flip_app.py:37-49 | with financing off, any down-payment, rate and points values give the same metrics |
| DealProperties.FinancedPriceSplit | flip_app.py:42-43 | with financing on, a fraction in [0, 1] and a non-negative price, down payment plus loan is the price and the loan is the price times one minus the fraction |
| DealProperties.FinancingCostFormula | flip_app.py:44-47 | with financing on, the financing cost is the loan times (annual rate / 12 times months plus points) |
| DealProperties.FinancedDeal | flip_app.py:41-47 | the financing-on facts stated on the calculator's output: loan at least 0, down payment the price times the fraction, the cost formula, and down payment plus loan equal to the price for a fraction in [0, 1] and a non-negative price |
| DealProperties.FullDownPaymentIsCash | flip_app.py:41-49 | financing with a 100% down payment gives the same metrics as paying cash |
| DealProperties.SameMetricsFromSameCosts | flip_app.py:14-90 | two deals that differ only in the financing fields and agree on the financing outcome get the same metrics |
| DealProperties.FinancingCostBounds | flip_app.py:41-47 | within the form's ranges the loan and the down payment lie in [0, price] and the financing cost is non-negative |
| DealProperties.FinancingNeverHelps | flip_app.py:41-64 | within the form's ranges, turning financing on never lowers the total investment and never raises the profit or the ROI |
| DealProperties.ReturnsDefinition | flip_app.py:64-65 | ROI is 0 with nothing invested and otherwise times the investment gives the profit; annualised ROI times the months is 12 times ROI, so equal to ROI at 12 months and twice it at 6 |
| DealProperties.RoiSignFollowsProfit | flip_app.py:64 | with a positive investment the ROI has the sign of the profit, in each direction |
| DealProperties.ScoreWithoutArv | flip_app.py:71-73 | with an after-repair value of 0 the score is 40 times the speed factor |
| DealProperties.ScoreSaturates | flip_app.py:71-73 | a profit of at least 25% of the after-repair value gives a score of 100 |
| DealProperties.ScoreBottomsOut | flip_app.py:71-73 | a loss of at least 10% of the after-repair value gives a score of 0 |
| DealProperties.SaleSideBounds | flip_app.py:23-61 | within the form's ranges the sell closing cost is in [0, 0.2 ARV] and the net proceeds in [0.8 ARV, ARV] |
| DealProperties.InvestmentAtLeastPriceAndRehab | flip_app.py:22-59 | within the form's ranges buy closing, carry and holding cost are non-negative and the investment is at least price plus rehab |
| DealProperties.RoiAtLeastMinusOne | flip_app.py:61-64 | within the form's ranges with money invested, the loss is at most the investment and the ROI is at least -1 |
| DealProperties.SpeedFactorAntitone | flip_app.py:72 | a longer hold never raises the speed factor, and past six months strictly lowers it |
| DealProperties.SpeedFactorExamples | flip_app.py:72 | the speed factor is 1 at 3 and 6 months, 0.5 at 12 and 0.25 at 24 |
| DealProperties.FinancingCostMonotoneInPrice | flip_app.py:42-47 | within the form's ranges a higher price never lowers the financing cost |
| DealProperties.ProfitAntitoneInPrice | flip_app.py:22-62 | within the form's ranges a higher price never lowers the investment and never raises the profit |
| DealProperties.FinancingCostMonotoneInMonths | flip_app.py:44-47 | within the form's ranges a longer hold never lowers the financing cost |
| DealProperties.HoldingCostMonotoneInMonths | flip_app.py:35 | within the form's ranges a longer hold never lowers the holding cost |
| DealProperties.LongerHoldNeverHelps | flip_app.py:35-73 | within the form's ranges a longer hold never lowers the investment and never raises the profit or the score |
| DealProperties.SafeDivMonotone | flip_app.py:5-6 | the zero-safe quotient by a non-negative divisor is monotone in the dividend |
| DealProperties.ScoreMonotone | flip_app.py:73 | the clamped score is monotone in the margin and in the speed factor |
| DealProperties.ScenarioAMetrics | flip_app.py:14-90 | the form's default cash deal over 6 months: closing 4500 and 15600, carry 775, holding 4650, investment 199150, proceeds 244400, profit 45250, ROI 45250/199150, annualised twice that, max offer 142000, score 100 |
| DealProperties.ScenarioBMetrics | flip_app.py:14-90 | the same deal over 12 months: holding 9300, investment 203800, profit 40600, annualised ROI equal to ROI, score 40600 * 400 / 260000 + 20 |
| Advisory.OfferCheck | flip_app.py:184-187 | the price is within the maximum offer exactly when it is at most the offer (strict `>` for the warning) |
| Advisory.ProfitCheck | flip_app.py:189-192 | the profit flag is positive exactly when the profit is above 0 (0 draws the warning) |
| Advisory.HoldingBand | flip_app.py:194-197 | long hold exactly above 9 months, fast flip exactly at 6 or fewer, no flag exactly for 7 to 9 |
| Advisory.Advise | flip_app.py:184-197 | given a deal and its metrics: within the offer exactly when the price is at most the metrics' maximum offer; profit positive exactly when the metrics' profit is above 0; long hold exactly above 9 months; fast flip exactly at 6 or fewer |
| Advisory.AdviceFor | flip_app.py:136-197 | the flags of a calculated deal: within the offer exactly when the price is at most the deal's 70%-rule offer; profit positive exactly when its profit is above 0; long hold above 9 months, fast flip at 6 or fewer, no flag for 7 to 9 |
| Advisory.OfferFlagOnDeal | flip_app.py:184-187 | on a calculated deal the price passes exactly when price plus rehab is at most 70% of ARV; a price equal to the offer passes |
| Advisory.ProfitFlagOnDeal | flip_app.py:189-192 | on a calculated deal the profit flag is positive exactly when proceeds exceed investment, and with money invested exactly when ROI is positive |
| Advisory.HoldingFlagMatchesSpeedFactor | flip_app.py:194-197 | the fast-flip band is exactly where the speed factor is 1; in the long-hold band it is below 0.75 |
| Advisory.ScenarioAAdvice | flip_app.py:184-197 | the default deal is above the 70%-rule offer (150000 against 142000), profitable, and a fast flip |

## Left out

- Page setup, sidebar input widgets, columns, metric tiles and flag messages (`flip_app.py:1-3`, `flip_app.py:92-200`): these are calls into the Streamlit UI library, which is not part of this model. The widget ranges survive only as the predicate `WithinInputRanges`, and the flags as the `Advisory` classifier.
- The `money` and `pct` formatters (`flip_app.py:8-12`): display only, relying on Python's float formatting, rounding and thousands separators.
- IEEE floating-point rounding: the model uses exact real arithmetic, so the worked deals' ROIs are exact fractions rather than rounded floats.
- A holding period of 0: the code divides by it unguarded (`flip_app.py:65`, `flip_app.py:72`) and the form forbids it, so the model requires at least one month instead of modelling the crash.
- The `int(holding_months)` cast at `flip_app.py:137`: the model takes the month count as a natural number directly.
