/** The collateral-risk arithmetic of the beginner wizard: collateral value,
    collateralisation ratio, liquidation price, the safety table and the two
    suggested borrow amounts. Every quantity is an exact real number. */
module RiskEngine {
  import opened Wrappers

  /** A vault is liquidated when collateral covers only 150% of the debt. */
  const LiquidationRatio: real := 1.5

  /** The safety levels of the wizard; `Unrated` is the empty level shown
      while no positive borrow amount has been entered. */
  datatype SafetyLevel = VerySafe | Safe | Risky | Danger | Unrated

  /** USD value of `stx` tokens at `price`. */
  function CollateralValue(stx: real, price: real): (v: real)
    ensures stx > 0.0 && price > 0.0 ==> v > 0.0
    ensures stx == 0.0 || price == 0.0 ==> v == 0.0
  {
    stx * price
  }

  /** Collateralisation ratio, in percent, of collateral worth `value`
      against a debt of `borrow`. */
  function Ratio(value: real, borrow: real): (r: real)
    requires borrow > 0.0
    ensures r * borrow == value * 100.0
    ensures value >= 0.0 ==> r >= 0.0
  {
    value / borrow * 100.0
  }

  /** The price at which the collateral covers exactly 150% of the debt.
      There is no finite such price when the collateral amount is zero. */
  function LiquidationPrice(stx: real, borrow: real): (p: Option<real>)
    ensures p.Some? <==> stx != 0.0
    ensures p.Some? ==> stx * p.value == borrow * LiquidationRatio
  {
    if stx == 0.0 then None else Some(borrow * LiquidationRatio / stx)
  }

  /** The first-match threshold table: 300, 200 and 170 percent, each bound
      inclusive. */
  function Classify(ratio: real): (l: SafetyLevel)
    ensures l != Unrated
    ensures l == VerySafe <==> ratio >= 300.0
    ensures l == Safe <==> 200.0 <= ratio < 300.0
    ensures l == Risky <==> 170.0 <= ratio < 200.0
    ensures l == Danger <==> ratio < 170.0
  {
    if ratio >= 300.0 then VerySafe
    else if ratio >= 200.0 then Safe
    else if ratio >= 170.0 then Risky
    else Danger
  }

  /** Orders the rated levels from the worst (0) to the best (3). */
  function Rank(l: SafetyLevel): nat
  {
    match l
    case Danger => 0
    case Risky => 1
    case Safe => 2
    case VerySafe => 3
    case Unrated => 0
  }

  /** The "recommended" borrow: a quarter of the collateral value. */
  function RecommendedBorrow(value: real): (b: real)
    ensures value > 0.0 ==> b > 0.0 && Ratio(value, b) == 400.0
  {
    value / 4.0
  }

  /** The "max safe" borrow: a third of the collateral value. */
  function MaxSafeBorrow(value: real): (b: real)
    ensures value > 0.0 ==> b > 0.0 && Ratio(value, b) == 300.0
    ensures value > 0.0 ==> Classify(Ratio(value, b)) == VerySafe
  {
    value / 3.0
  }

  /** How far, in percent of the current price, the price may fall before
      it reaches the liquidation price. */
  function BufferPercent(price: real, liquidationPrice: real): (r: real)
    requires price > 0.0
    ensures r * price == (price - liquidationPrice) * 100.0
    ensures r > 0.0 <==> liquidationPrice < price
  {
    (price - liquidationPrice) / price * 100.0
  }

  /** A higher ratio never gives a worse safety level. */
  lemma ClassifyMonotone(r1: real, r2: real)
    requires r1 <= r2
    ensures Rank(Classify(r1)) <= Rank(Classify(r2))
  {
  }

  /** The table's boundaries belong to the safer level. */
  lemma ClassifyBoundaries()
    ensures Classify(300.0) == VerySafe && Classify(299.999) == Safe
    ensures Classify(200.0) == Safe && Classify(199.999) == Risky
    ensures Classify(170.0) == Risky && Classify(169.999) == Danger
  {
  }

  lemma MulMonotone(a: real, b: real, c: real)
    requires a <= b && c >= 0.0
    ensures a * c <= b * c && c * a <= c * b
  {
    assert b * c - a * c == (b - a) * c;
  }

  /** More collateral never lowers the ratio. */
  lemma RatioMonotoneInCollateral(stx1: real, stx2: real, price: real, borrow: real)
    requires stx1 <= stx2 && price >= 0.0 && borrow > 0.0
    ensures Ratio(CollateralValue(stx1, price), borrow) <= Ratio(CollateralValue(stx2, price), borrow)
  {
    MulMonotone(stx1, stx2, price);
    RatioMonotoneInValue(CollateralValue(stx1, price), CollateralValue(stx2, price), borrow);
  }

  /** A higher price never lowers the ratio. */
  lemma RatioMonotoneInPrice(stx: real, price1: real, price2: real, borrow: real)
    requires price1 <= price2 && stx >= 0.0 && borrow > 0.0
    ensures Ratio(CollateralValue(stx, price1), borrow) <= Ratio(CollateralValue(stx, price2), borrow)
  {
    MulMonotone(price1, price2, stx);
    RatioMonotoneInValue(CollateralValue(stx, price1), CollateralValue(stx, price2), borrow);
  }

  lemma RatioMonotoneInValue(v1: real, v2: real, borrow: real)
    requires v1 <= v2 && borrow > 0.0
    ensures Ratio(v1, borrow) <= Ratio(v2, borrow)
  {
    var r1, r2 := Ratio(v1, borrow), Ratio(v2, borrow);
    var d := r2 - r1;
    assert d * borrow == r2 * borrow - r1 * borrow;
    SignOfProduct(d, borrow);
  }

  /** Borrowing more strictly lowers the ratio of positive collateral. */
  lemma RatioStrictlyDecreasingInBorrow(value: real, b1: real, b2: real)
    requires value > 0.0 && 0.0 < b1 < b2
    ensures Ratio(value, b2) < Ratio(value, b1)
  {
    var r1, r2 := Ratio(value, b1), Ratio(value, b2);
    SignOfProduct(r2, b2);
    SignOfProduct(r2, b2 - b1);
    calc {
      r1 * b1;
      value * 100.0;
      r2 * b2;
      r2 * b1 + r2 * (b2 - b1);
    >
      r2 * b1;
    }
    CancelPositive(r1, r2, b1);
  }

  /** At the liquidation price the ratio is exactly 150%. */
  lemma RatioAtLiquidationPrice(stx: real, borrow: real)
    requires stx != 0.0 && borrow > 0.0
    ensures Ratio(CollateralValue(stx, LiquidationPrice(stx, borrow).value), borrow) == 150.0
  {
  }

  /** For positive collateral, the ratio is below 150% exactly when the
      price is below the liquidation price. */
  lemma BelowLiquidationPrice(stx: real, price: real, borrow: real)
    requires stx > 0.0 && borrow > 0.0
    ensures price < LiquidationPrice(stx, borrow).value <==> Ratio(CollateralValue(stx, price), borrow) < 150.0
  {
    var p := LiquidationPrice(stx, borrow).value;
    RatioAtLiquidationPrice(stx, borrow);
    ComparePrices(stx, price, p, borrow);
  }

  /** Compares the ratio at `price` with the ratio at a reference price `p`. */
  lemma ComparePrices(stx: real, price: real, p: real, borrow: real)
    requires stx > 0.0 && borrow > 0.0
    ensures price < p ==> Ratio(CollateralValue(stx, price), borrow) < Ratio(CollateralValue(stx, p), borrow)
    ensures p <= price ==> Ratio(CollateralValue(stx, p), borrow) <= Ratio(CollateralValue(stx, price), borrow)
  {
    if price < p {
      assert stx * p - stx * price == stx * (p - price);
      SignOfProduct(p - price, stx);
      RatioStrictlyIncreasingInValue(CollateralValue(stx, price), CollateralValue(stx, p), borrow);
    } else {
      MulMonotone(p, price, stx);
      RatioMonotoneInValue(CollateralValue(stx, p), CollateralValue(stx, price), borrow);
    }
  }

  lemma RatioStrictlyIncreasingInValue(v1: real, v2: real, borrow: real)
    requires v1 < v2 && borrow > 0.0
    ensures Ratio(v1, borrow) < Ratio(v2, borrow)
  {
    var r1, r2 := Ratio(v1, borrow), Ratio(v2, borrow);
    var d := r2 - r1;
    assert d * borrow == r2 * borrow - r1 * borrow;
    SignOfProduct(d, borrow);
  }

  /** For non-negative collateral value the recommended amount never
      exceeds the max-safe amount. */
  lemma RecommendedWithinMaxSafe(value: real)
    requires value >= 0.0
    ensures RecommendedBorrow(value) <= MaxSafeBorrow(value)
  {
  }

  /** Any positive borrow up to the max-safe amount is rated very safe. */
  lemma UpToMaxSafeIsVerySafe(value: real, borrow: real)
    requires value > 0.0 && 0.0 < borrow <= MaxSafeBorrow(value)
    ensures Classify(Ratio(value, borrow)) == VerySafe
  {
  }

  /** The buffer equals 100% minus the share of the ratio that the 150%
      threshold takes. */
  lemma BufferFromRatio(stx: real, price: real, borrow: real)
    requires stx != 0.0 && price > 0.0 && borrow > 0.0
    ensures BufferPercent(price, LiquidationPrice(stx, borrow).value) * Ratio(CollateralValue(stx, price), borrow)
         == (Ratio(CollateralValue(stx, price), borrow) - 150.0) * 100.0
  {
    var p := borrow * 1.5 / stx;
    var v := stx * price;
    assert (price - p) * stx == v - borrow * 1.5;
    calc {
      BufferPercent(price, p) * Ratio(v, borrow);
      ((price - p) / price * 100.0) * (v / borrow * 100.0);
      ((price - p) * stx) * 10000.0 / borrow;
      (v - borrow * 1.5) * 10000.0 / borrow;
      v * 10000.0 / borrow - borrow * 15000.0 / borrow;
      v * 10000.0 / borrow - 15000.0;
      (v / borrow * 100.0 - 150.0) * 100.0;
    }
  }

  lemma CancelPositive(x: real, y: real, c: real)
    requires c > 0.0 && x * c > y * c
    ensures x > y
  {
  }

  lemma SignOfProduct(x: real, y: real)
    requires y > 0.0
    ensures x > 0.0 <==> x * y > 0.0
    ensures x < 0.0 <==> x * y < 0.0
  {
  }

  /** The suggestion boxes show `toFixed(0)` of the suggested amount. At
      1001 STX the max-safe amount lies strictly between 283.5 and 284, so
      the box shows 284, and borrowing that rates the position only safe. */
  lemma RoundedMaxSafeCanRateSafe()
    ensures 283.5 < MaxSafeBorrow(CollateralValue(1001.0, 0.85)) < 284.0
    ensures Classify(Ratio(CollateralValue(1001.0, 0.85), 284.0)) == Safe
  {
    assert CollateralValue(1001.0, 0.85) == 850.85;
    assert Ratio(850.85, 284.0) * 284.0 == 85085.0;
  }

  /** Worked examples of the risk arithmetic. */
  lemma Scenarios()
    ensures CollateralValue(1000.0, 0.85) == 850.0
    ensures Ratio(CollateralValue(1000.0, 0.85), 200.0) == 425.0
    ensures Classify(Ratio(CollateralValue(1000.0, 0.85), 200.0)) == VerySafe
    ensures LiquidationPrice(1000.0, 200.0) == Some(0.3)
    ensures Ratio(CollateralValue(100.0, 0.85), 50.0) == 170.0
    ensures Classify(Ratio(CollateralValue(100.0, 0.85), 50.0)) == Risky
    ensures RecommendedBorrow(CollateralValue(1000.0, 0.85)) == 212.5
    ensures MaxSafeBorrow(CollateralValue(1000.0, 0.85)) * 3.0 == 850.0
  {
  }
}
