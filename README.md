# Arkadiko beginner vault wizard — Dafny model

This project models the domain logic of a Next.js onboarding screen for an
Arkadiko collateralised-debt position on Stacks. A user deposits STX, borrows
USDA against it, sees a risk assessment, confirms a simulated transaction and
then watches a dashboard that drifts the STX price and shows the position's
health. All numbers are exact `real`s.

- `wrappers.dfy`, module `Wrappers`: the `Option` type.
- `risk.dfy`, module `RiskEngine`: the pure risk arithmetic of the wizard.
  It covers collateral value, collateralisation ratio, liquidation price, the
  300/200/170 safety table, the "recommended" and "max safe" borrows and the
  price buffer.
- `wizard.dfy`, module `WizardFlow`: the five-step wizard.
  - `Apply` gives the state after each button or field change, the risk
    effect included.
  - `Inv` is the invariant of every reachable state.
  - `Run` applies a sequence of user actions.
  - Class `Wizard` holds the state in fields (`view`, `step`, the two amount
    fields and the three derived fields) and has one method per control.
    Each method's new state is stated through `Apply`.
- `dashboard.dfy`, module `DashboardSim`: the dashboard's price tick, health
  score, warning and colour bands.
  - Class `Monitor` holds the live price, ratio and health score. `Tick`
    moves the price and `Refresh` is the effect that recomputes the
    figures.

An amount field is modelled as `Input(present, value)`. `present` is false
exactly when the text field holds the empty string, because the gating in the
source tests the string for emptiness, not the number for positivity.

In these places the model follows the code, which a reader might expect to behave otherwise:
- Continue on the Amount step needs both fields to be non-empty
  (components/ArkadikoBeginnerWizard.tsx:273). It does not need them to be
  positive. A zero or negative borrow passes the guard and is rated `Unrated`
  (the empty level).
- The code has no zero-collateral guard for the liquidation price
  (components/ArkadikoBeginnerWizard.tsx:33). JavaScript yields Infinity there,
  not 0. `LiquidationPrice` returns `None` for that case and a finite value
  otherwise.
- Back buttons move exactly one step back: 1 to 0, 2 to 1 and 3 to 2. No
  Back button jumps further back; only the dashboard's logout returns from
  step 4 to step 0.
- With a non-positive borrow amount, the effect resets the ratio and the safety
  level but keeps the previous liquidation price.

## Model

| member | source | states |
|---|---|---|
| `RiskEngine.CollateralValue` | components/ArkadikoBeginnerWizard.tsx:26 | positive for positive amount and price, zero when either is zero; Dashboard.tsx:40 uses the same product |
| `RiskEngine.Ratio` | components/ArkadikoBeginnerWizard.tsx:26-30 | for a positive borrow, ratio × borrow = collateral value × 100; the ratio is non-negative for non-negative value |
| `RiskEngine.LiquidationPrice` | components/ArkadikoBeginnerWizard.tsx:33 | finite exactly when the STX amount is non-zero, and then STX × price = borrow × 1.5 |
| `RiskEngine.Classify` | components/ArkadikoBeginnerWizard.tsx:36-39 | first-match table: very safe iff ratio ≥ 300, safe iff 200 ≤ ratio < 300, risky iff 170 ≤ ratio < 200, danger iff ratio < 170; never the empty level |
| `RiskEngine.RecommendedBorrow` | components/ArkadikoBeginnerWizard.tsx:94 | for positive collateral value, borrowing the (unrounded) recommended amount gives a 400% ratio |
| `RiskEngine.MaxSafeBorrow` | components/ArkadikoBeginnerWizard.tsx:93 | for positive collateral value, borrowing the (unrounded) max-safe amount gives exactly 300%, rated very safe |
| `RiskEngine.BufferPercent` | components/ArkadikoBeginnerWizard.tsx:311 | buffer × price = (price − liquidation price) × 100; the buffer is positive iff the liquidation price is below the price |
| `RiskEngine.ClassifyMonotone` | components/ArkadikoBeginnerWizard.tsx:36-39 | a higher ratio never yields a worse safety level |
| `RiskEngine.ClassifyBoundaries` | components/ArkadikoBeginnerWizard.tsx:36-38 | each threshold is inclusive: 300 very safe, 299.999 safe, 200 safe, 199.999 risky, 170 risky, 169.999 danger |
| `RiskEngine.RatioMonotoneInCollateral` | components/ArkadikoBeginnerWizard.tsx:26-30 | more STX never lowers the ratio (non-negative price, positive borrow) |
| `RiskEngine.RatioMonotoneInPrice` | components/ArkadikoBeginnerWizard.tsx:26-30 | a higher price never lowers the ratio (non-negative STX, positive borrow) |
| `RiskEngine.RatioStrictlyDecreasingInBorrow` | components/ArkadikoBeginnerWizard.tsx:27-30 | a larger positive borrow strictly lowers the ratio of positive collateral value |
| `RiskEngine.RatioAtLiquidationPrice` | components/ArkadikoBeginnerWizard.tsx:30-33 | at the liquidation price the ratio is exactly 150% |
| `RiskEngine.BelowLiquidationPrice` | components/ArkadikoBeginnerWizard.tsx:30-33 | for positive STX and borrow, the price is below the liquidation price iff the ratio is below 150% |
| `RiskEngine.RecommendedWithinMaxSafe` | components/ArkadikoBeginnerWizard.tsx:93-94 | for non-negative value the recommended amount never exceeds the max-safe amount |
| `RiskEngine.UpToMaxSafeIsVerySafe` | components/ArkadikoBeginnerWizard.tsx:93 | every positive borrow up to the max-safe amount is rated very safe |
| `RiskEngine.BufferFromRatio` | components/ArkadikoBeginnerWizard.tsx:311 | buffer × ratio = (ratio − 150) × 100, so the buffer is zero exactly at the 150% threshold |
| `RiskEngine.RoundedMaxSafeCanRateSafe` | components/ArkadikoBeginnerWizard.tsx:93 | at 1001 STX the max-safe amount rounds to 284, and borrowing 284 rates the position only safe |
| `RiskEngine.Scenarios` | components/ArkadikoBeginnerWizard.tsx:26-39 | 1000 STX at 0.85 borrowing 200: value 850, ratio 425, very safe, liquidation price 0.3; 100 STX borrowing 50: ratio 170, risky; suggestions 212.5 and 850/3 |
| `WizardFlow.Derive` | components/ArkadikoBeginnerWizard.tsx:24-45 | an empty field leaves all three derived fields as they were; a non-positive borrow gives ratio 0 and the empty level and keeps the liquidation price; a positive borrow gives ratio × borrow = STX × 0.85 × 100, the table's level and the liquidation price for the amounts |
| `WizardFlow.DeriveIdempotent` | components/ArkadikoBeginnerWizard.tsx:24-45 | running the effect again on its own output changes nothing |
| `WizardFlow.Init` | components/ArkadikoBeginnerWizard.tsx:14-22 | the initial state (wizard view, step 0, both fields empty) satisfies the invariant |
| `WizardFlow.Enabled` | components/ArkadikoBeginnerWizard.tsx:57-418 | the render conditions of the controls (dashboard view at 57, steps at 154, 207, 283, 331, 394, wallet box at 182, suggestions at 247): in the dashboard only logout is possible, and the amounts can be edited only on step 1 |
| `WizardFlow.Apply` | components/ArkadikoBeginnerWizard.tsx:51-418 | the handlers at 196, 222, 240, 250, 257, 269, 274, 318, 322, 381, 385, 418 and logout at 51-55: each control changes only its own part of the state: only the deposit field changes the deposit, only the borrow field and the suggestion boxes change the borrow, only the amount controls change the assessment, only "Go to Dashboard" and logout change the view, and only "Let's Go", Back, Continue and logout change the step |
| `WizardFlow.AmountsEntered` | components/ArkadikoBeginnerWizard.tsx:273 | true iff both fields are non-empty, i.e. the step-1 Continue button is enabled; while it is false the risk effect writes nothing |
| `WizardFlow.Suggested` | components/ArkadikoBeginnerWizard.tsx:250-257 | the clicked suggestion fills the borrow field; for positive collateral value the (unrounded) amount gives 400% (recommended) or 300% (max safe) |
| `WizardFlow.ApplyPreservesInv` | components/ArkadikoBeginnerWizard.tsx:51-418 | every on-screen control keeps the invariant: step in 0..4, dashboard only at step 4, both amounts present from step 2 on, assessment current and level consistent with ratio |
| `WizardFlow.RunPreservesInv` | components/ArkadikoBeginnerWizard.tsx:14-45 | every sequence of on-screen actions keeps the invariant |
| `WizardFlow.Reachable` | components/ArkadikoBeginnerWizard.tsx:14-22 | every state reachable from page load has step in 0..4, enters the dashboard only at step 4 with both amounts entered, and shows an assessment current for its amounts |
| `WizardFlow.ForwardMoves` | components/ArkadikoBeginnerWizard.tsx:182-385 | forward moves are +1 only; 0→1 only by "Let's Go" with wallet data; 1→2 iff both fields are non-empty; 2→3 and 3→4 whatever the safety level |
| `WizardFlow.BackwardMoves` | components/ArkadikoBeginnerWizard.tsx:269-381 | the only backward moves are Back from steps 1, 2, 3 (one step each) and logout to step 0 |
| `WizardFlow.DashboardOnlyFromFinish` | components/ArkadikoBeginnerWizard.tsx:418 | the dashboard view is entered only from step 4 by its button |
| `WizardFlow.LogoutResets` | components/ArkadikoBeginnerWizard.tsx:51-55 | logout sets the wizard view and step 0 and keeps amounts and assessment |
| `WizardFlow.SuggestionsRating` | components/ArkadikoBeginnerWizard.tsx:247-257 | for positive STX, clicking "Max Safe" with the unrounded amount gives ratio 300 and very safe, and "Recommended" gives ratio 400 and very safe |
| `WizardFlow.EmptyBorrowBlocks` | components/ArkadikoBeginnerWizard.tsx:273-274 | with an empty borrow field, Continue on step 1 changes nothing |
| `WizardFlow.Wizard.constructor` | components/ArkadikoBeginnerWizard.tsx:14-22 | the fields start as the initial state and satisfy the invariant |
| `WizardFlow.Wizard.RefreshRisk` | components/ArkadikoBeginnerWizard.tsx:24-45 | the in-place effect writes exactly `Derive` of the current amounts and the old derived fields |
| `WizardFlow.Wizard.Start` | components/ArkadikoBeginnerWizard.tsx:182-200 | "Let's Go" keeps the invariant and moves 0→1 only with wallet data |
| `WizardFlow.Wizard.EnterStx` | components/ArkadikoBeginnerWizard.tsx:222 | sets the deposit field and reruns the effect, keeping the invariant |
| `WizardFlow.Wizard.EnterBorrow` | components/ArkadikoBeginnerWizard.tsx:240 | sets the borrow field and reruns the effect, keeping the invariant |
| `WizardFlow.Wizard.PickRecommended` | components/ArkadikoBeginnerWizard.tsx:250 | sets the borrow field to a quarter of the collateral value and reruns the effect |
| `WizardFlow.Wizard.PickMaxSafe` | components/ArkadikoBeginnerWizard.tsx:257 | sets the borrow field to a third of the collateral value and reruns the effect |
| `WizardFlow.Wizard.Back` | components/ArkadikoBeginnerWizard.tsx:269-381 | steps 1, 2 and 3 go back by one |
| `WizardFlow.Wizard.Continue` | components/ArkadikoBeginnerWizard.tsx:273-385 | step 1 advances only with both fields non-empty; steps 2 and 3 advance unconditionally |
| `WizardFlow.Wizard.OpenDashboard` | components/ArkadikoBeginnerWizard.tsx:418 | step 4 switches to the dashboard view |
| `WizardFlow.Wizard.Logout` | components/ArkadikoBeginnerWizard.tsx:51-55 | back to the wizard view at step 0, amounts kept |
| `DashboardSim.NextPrice` | components/Dashboard.tsx:32-33 | the new price is at least 0.1 and at least prev + change, and is one of the two |
| `DashboardSim.TickIsBounded` | components/Dashboard.tsx:32-33 | when prev + change ≥ 0.1 the price moves by −0.01 ≤ d < 0.01 |
| `DashboardSim.TickFromAboveFloor` | components/Dashboard.tsx:32-33 | from a price at or above the floor every tick, floored or not, moves it by −0.01 ≤ d < 0.01 |
| `DashboardSim.Health` | components/Dashboard.tsx:46-48 | health lies in [0, 100]; it is 0 for ratio ≤ 150, 100 for ratio ≥ 300, and linear between them |
| `DashboardSim.HealthMonotone` | components/Dashboard.tsx:48 | health is non-decreasing in the ratio |
| `DashboardSim.HealthExamples` | components/Dashboard.tsx:47-48 | health(150) = 0, health(300) = 100, health(75) = 0, health(450) = 100 |
| `DashboardSim.ShowWarning` | components/Dashboard.tsx:124 | the warning shows iff the wizard's table rates the ratio risky or danger, i.e. below 200 |
| `DashboardSim.RatioColourOf` | components/Dashboard.tsx:94-96 | the ratio colour is green, blue, yellow or red exactly as the safety table gives very safe, safe, risky or danger |
| `DashboardSim.HealthBandOf` | components/Dashboard.tsx:111-113 | green iff health > 60, yellow iff 30 < health ≤ 60, red iff health ≤ 30: the bands partition all health values |
| `DashboardSim.HealthBandThresholds` | components/Dashboard.tsx:111-113 | for the score `Health(ratio)` of a ratio: its band is green iff ratio > 240 and red iff ratio ≤ 195, and a ratio that triggers the warning never has a green score |
| `DashboardSim.DashboardAgreesWithWizard` | components/Dashboard.tsx:40-43 | for every reachable dashboard state with a positive borrow, both amounts are present and the dashboard formula at the wizard's price gives the ratio the wizard showed |
| `DashboardSim.Monitor.NoGreenBarWithWarning` | components/Dashboard.tsx:111-124 | once the shown health score belongs to the shown ratio, the warning and a green bar never appear together |
| `DashboardSim.Monitor.WarningWithGreenBar` | components/Dashboard.tsx:26-27 | with a borrow amount that is not positive the initial pair (0%, 100) stays, so the warning and a full green bar show together |
| `DashboardSim.Monitor.Mount` | components/Dashboard.tsx:24-51 | opening the dashboard from a reachable wizard state and running the effect once: the price is the wizard's 0.85, and with a positive borrow the ratio equals the wizard's ratio and health is its score; otherwise the initial pair (0%, 100) stays |
| `DashboardSim.Monitor.constructor` | components/Dashboard.tsx:24-27 | price starts at the given price, ratio 0, health 100 |
| `DashboardSim.Monitor.Tick` | components/Dashboard.tsx:31-34 | only the price changes, to `NextPrice` of the old price, so it is at least 0.1 |
| `DashboardSim.Monitor.Refresh` | components/Dashboard.tsx:39-51 | with a positive borrow, ratio and health are recomputed from the current price; otherwise both keep their previous values; health stays in [0, 100] |

## Left out

- Wallet plumbing (components/StacksProvider.tsx) is not part of this model. It
  covers `localStorage`, the asynchronous `connect` call, `signUserOut`, the
  loading flag and the React context. Whether wallet data is present is a
  parameter of `Wizard.Start`, and the `disconnect()` call inside logout is
  not modelled. `disconnect()` ends in the wallet library's `signUserOut("/")`
  (components/StacksProvider.tsx:72), which is likely to reload the page. If
  so, the amounts that `WizardFlow.LogoutResets` keeps do not survive in the
  browser. That library is not part of this model.
- app/page.tsx is not part of this model: it only composes components.
- IEEE-754 behaviour is not modelled. This covers float rounding,
  `parseFloat` of the text fields and the `toFixed` formatting.
- WizardFlow.Wizard.PickRecommended: the borrow field is set to the unrounded
  value. The source sets the `toFixed(0)` string, so the 400% and 300% facts
  hold there only up to that rounding.
- WizardFlow.Wizard.PickMaxSafe: same unrounded simplification as
  PickRecommended.
- WizardFlow.SuggestionsRating: proved only for the unrounded amounts.
  With the `toFixed(0)` string the source writes, two cases differ. At
  1001 STX "Max Safe" shows 284 and rates only safe, about 299.6%
  (`RiskEngine.RoundedMaxSafeCanRateSafe`). At 1 STX both boxes show "0",
  so the effect takes the non-positive branch: ratio 0 and the empty level.
- `setInterval`, `clearInterval` and `Math.random` are not modelled. A tick is
  `Monitor.Tick(change)` with −0.01 ≤ change < 0.01 given by the caller. The
  timer's lifetime and its cancellation on unmount are not modelled.
- React scheduling is not modelled. Each field change is followed at once by
  the effect, so no state shows new amounts with stale derived fields.
  `Monitor.Tick` and `Monitor.Refresh` are separate calls, as the tick and the
  effect are in the source.
- DashboardSim.Monitor.constructor: takes the amounts as numbers. The empty
  string (`parseFloat` gives NaN) never reaches the dashboard, because
  `WizardFlow.Reachable` proves both fields are non-empty at step 4.
- User-facing output is not modelled: JSX rendering, CSS class strings, icons,
  messages, the progress bar, the address truncation and the unused
  `userLevel` state.
- The USD preview under the deposit field
  (components/ArkadikoBeginnerWizard.tsx:227) is not modelled. It is display
  only and is `CollateralValue` of the parsed text.
