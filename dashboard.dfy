/** The vault dashboard: a simulated STX price that drifts on every timer
    tick, the collateralisation ratio and a 0-100 health score recomputed
    from it, the low-ratio warning and the colour bands of the display. */
module DashboardSim {
  import opened RiskEngine
  import WizardFlow

  /** The simulated price never drops below ten cents. */
  const PriceFloor: real := 0.1

  /** A tick moves the price by at most one cent. */
  const MaxChange: real := 0.01

  /** The price after one tick that draws `change`. */
  function NextPrice(prev: real, change: real): (p: real)
    ensures p >= PriceFloor
    ensures p >= prev + change
    ensures p == prev + change || p == PriceFloor
  {
    Max(PriceFloor, prev + change)
  }

  /** Health score: 0 at a 150% ratio, 100 at 300%, linear in between and
      clamped outside. */
  function Health(ratio: real): (h: real)
    ensures 0.0 <= h <= 100.0
    ensures ratio <= 150.0 ==> h == 0.0
    ensures ratio >= 300.0 ==> h == 100.0
    ensures 150.0 <= ratio <= 300.0 ==> h * 1.5 == ratio - 150.0
  {
    Min(100.0, Max(0.0, (ratio - 150.0) / 1.5))
  }

  function Min(a: real, b: real): real { if a <= b then a else b }

  function Max(a: real, b: real): real { if a >= b then a else b }

  /** The low-ratio warning box. */
  function ShowWarning(ratio: real): (w: bool)
    ensures w <==> Classify(ratio) == Risky || Classify(ratio) == Danger
  {
    ratio < 200.0
  }

  datatype RatioColour = Green | Blue | Yellow | Red

  /** Colour of the ratio figure; it follows the wizard's safety table. */
  function RatioColourOf(ratio: real): (c: RatioColour)
    ensures c == match Classify(ratio)
      case VerySafe => Green
      case Safe => Blue
      case Risky => Yellow
      case _ => Red
  {
    if ratio >= 300.0 then Green
    else if ratio >= 200.0 then Blue
    else if ratio >= 170.0 then Yellow
    else Red
  }

  datatype HealthBand = GreenBar | YellowBar | RedBar

  /** Colour of the health bar. */
  function HealthBandOf(health: real): (b: HealthBand)
    ensures b == GreenBar <==> health > 60.0
    ensures b == YellowBar <==> 30.0 < health <= 60.0
    ensures b == RedBar <==> health <= 30.0
  {
    if health > 60.0 then GreenBar
    else if health > 30.0 then YellowBar
    else RedBar
  }

  /** A tick far enough above the floor moves the price by less than a cent
      either way. */
  lemma TickIsBounded(prev: real, change: real)
    requires -MaxChange <= change < MaxChange && prev + change >= PriceFloor
    ensures -MaxChange <= NextPrice(prev, change) - prev < MaxChange
  {
  }

  /** Once the price is at or above the floor, every tick, floored or not,
      moves it by at most a cent. */
  lemma TickFromAboveFloor(prev: real, change: real)
    requires -MaxChange <= change < MaxChange && prev >= PriceFloor
    ensures -MaxChange <= NextPrice(prev, change) - prev < MaxChange
  {
  }

  /** A higher ratio never gives a lower health score. */
  lemma HealthMonotone(r1: real, r2: real)
    requires r1 <= r2
    ensures Health(r1) <= Health(r2)
  {
  }

  lemma HealthExamples()
    ensures Health(150.0) == 0.0 && Health(300.0) == 100.0
    ensures Health(75.0) == 0.0 && Health(450.0) == 100.0
  {
  }

  /** In ratio terms the health score's band is green above 240% and red at
      or below 195%; so the score of a ratio that triggers the warning is
      never in the green band. The dashboard's initial pair (0%, 100) is not
      such a score: see `Monitor.WarningWithGreenBar`. */
  lemma HealthBandThresholds(ratio: real)
    ensures HealthBandOf(Health(ratio)) == GreenBar <==> ratio > 240.0
    ensures HealthBandOf(Health(ratio)) == RedBar <==> ratio <= 195.0
    ensures ShowWarning(ratio) ==> HealthBandOf(Health(ratio)) != GreenBar
  {
  }

  /** The dashboard's ratio at the wizard's price is the ratio the wizard
      showed: a reachable dashboard state always carries both amounts and
      a current assessment. */
  lemma DashboardAgreesWithWizard(es: seq<WizardFlow.Event>)
    requires WizardFlow.Run(WizardFlow.Init(), es).Some?
    requires WizardFlow.Run(WizardFlow.Init(), es).value.view == WizardFlow.DashboardView
    requires WizardFlow.Run(WizardFlow.Init(), es).value.borrow.value > 0.0
    ensures var t := WizardFlow.Run(WizardFlow.Init(), es).value;
      t.stx.present && t.borrow.present &&
      Ratio(CollateralValue(t.stx.value, WizardFlow.StxPrice), t.borrow.value) == t.risk.ratio
  {
    WizardFlow.Reachable(es);
  }

  /** The dashboard's state: the amounts it was opened with, the live price
      and the two figures derived from it. */
  class Monitor {
    const stxAmount: real
    const borrowAmount: real
    var stxPrice: real
    var collateralRatio: real
    var healthFactor: real

    /** The health score stays in range and belongs to the ratio shown,
        except in the initial pair (0%, 100) that is never overwritten
        while the borrow amount is not positive. */
    ghost predicate Valid()
      reads this
    {
      && 0.0 <= healthFactor <= 100.0
      && (healthFactor == Health(collateralRatio) || (collateralRatio == 0.0 && healthFactor == 100.0))
      && (borrowAmount <= 0.0 ==> collateralRatio == 0.0 && healthFactor == 100.0)
    }

    /** Opening the dashboard from a reachable wizard state: the state of
        lines 25-27, then the first run of the effect. With a positive
        borrow it shows the ratio the wizard showed; otherwise it keeps the
        initial pair. */
    static method Mount(t: WizardFlow.FlowState) returns (m: Monitor)
      requires WizardFlow.Inv(t) && t.view == WizardFlow.DashboardView
      ensures fresh(m) && m.Valid()
      ensures m.stxAmount == t.stx.value && m.borrowAmount == t.borrow.value
      ensures m.stxPrice == WizardFlow.StxPrice
      ensures t.borrow.value > 0.0 ==>
                m.collateralRatio == t.risk.ratio && m.healthFactor == Health(t.risk.ratio)
      ensures t.borrow.value <= 0.0 ==> m.collateralRatio == 0.0 && m.healthFactor == 100.0
    {
      m := new Monitor(t.stx.value, t.borrow.value, WizardFlow.StxPrice);
      m.Refresh();
    }

    constructor (stx: real, borrowed: real, initialPrice: real)
      ensures Valid()
      ensures stxAmount == stx && borrowAmount == borrowed
      ensures stxPrice == initialPrice && collateralRatio == 0.0 && healthFactor == 100.0
    {
      stxAmount := stx;
      borrowAmount := borrowed;
      stxPrice := initialPrice;
      collateralRatio := 0.0;
      healthFactor := 100.0;
    }

    /** One timer tick; only the price changes. */
    method Tick(change: real)
      requires Valid() && -MaxChange <= change < MaxChange
      modifies this`stxPrice
      ensures Valid()
      ensures stxPrice == NextPrice(old(stxPrice), change)
      ensures stxPrice >= PriceFloor
    {
      stxPrice := NextPrice(stxPrice, change);
    }

    /** The effect that runs after every price change: it recomputes the
        ratio and the health score when the borrow amount is positive and
        otherwise keeps both. */
    method Refresh()
      requires Valid()
      modifies this`collateralRatio, this`healthFactor
      ensures Valid()
      ensures borrowAmount > 0.0 ==>
                collateralRatio == Ratio(CollateralValue(stxAmount, stxPrice), borrowAmount) &&
                healthFactor == Health(collateralRatio)
      ensures borrowAmount <= 0.0 ==>
                collateralRatio == old(collateralRatio) && healthFactor == old(healthFactor)
    {
      var value := CollateralValue(stxAmount, stxPrice);
      var borrowed := borrowAmount;
      if borrowed > 0.0 {
        var ratio := Ratio(value, borrowed);
        collateralRatio := ratio;
        healthFactor := Health(ratio);
      }
    }

    /** Once the health score belongs to the ratio shown, the warning and
        a green health bar never appear together. */
    lemma NoGreenBarWithWarning()
      requires Valid() && healthFactor == Health(collateralRatio)
      ensures ShowWarning(collateralRatio) ==> HealthBandOf(healthFactor) != GreenBar
    {
      HealthBandThresholds(collateralRatio);
    }

    /** With a borrow amount that is not positive the initial pair is never
        overwritten: the dashboard shows the low-ratio warning (0%) beside a
        full green health bar (100). */
    lemma WarningWithGreenBar()
      requires Valid() && borrowAmount <= 0.0
      ensures ShowWarning(collateralRatio) && HealthBandOf(healthFactor) == GreenBar
    {
    }
  }
}
