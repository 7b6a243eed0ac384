/** The five-step onboarding wizard (Start, Amount, Risks, Review, Finish)
    and its switch to the dashboard view. The pure part states what each
    button does to the wizard state; the class `Wizard` holds that state in
    fields and updates it in place, one method per button. */
module WizardFlow {
  import opened Wrappers
  import opened RiskEngine

  /** The wizard never changes its STX price. */
  const StxPrice: real := 0.85

  datatype View = WizardView | DashboardView

  /** A numeric text field: `present` is false exactly when the field holds
      the empty string, and `value` is the number the text parses to. */
  datatype Input = Input(present: bool, value: real)

  const Blank := Input(false, 0.0)

  /** The derived fields that the risk effect keeps up to date. */
  datatype Assessment = Assessment(ratio: real, safety: SafetyLevel, liquidationPrice: Option<real>)

  datatype FlowState = FlowState(view: View, step: int, stx: Input, borrow: Input, risk: Assessment)

  /** The user actions the wizard reacts to. `Start` is the "Let's Go" button,
      told whether wallet data is present; `Back` and `Continue` are the
      navigation buttons of steps 1 to 3. */
  datatype Event =
    | Start(walletConnected: bool)
    | EnterStx(stx: Input)
    | EnterBorrow(borrow: Input)
    | PickRecommended
    | PickMaxSafe
    | Back
    | Continue
    | OpenDashboard
    | Logout

  /** The state when the page is opened. */
  function Init(): (s: FlowState)
    ensures Inv(s)
    ensures s.view == WizardView && s.step == 0 && !AmountsEntered(s)
  {
    FlowState(WizardView, 0, Blank, Blank, Assessment(0.0, Unrated, Some(0.0)))
  }

  /** The risk effect: what the derived fields become after the amounts
      change. With an empty field nothing is written; with a borrow amount
      that is not positive, the ratio and level are reset and the
      liquidation price is kept. */
  function Derive(stx: Input, borrow: Input, prev: Assessment): (a: Assessment)
    ensures !(stx.present && borrow.present) ==> a == prev
    ensures stx.present && borrow.present && borrow.value <= 0.0 ==>
              a.ratio == 0.0 && a.safety == Unrated && a.liquidationPrice == prev.liquidationPrice
    ensures stx.present && borrow.present && borrow.value > 0.0 ==>
              a.ratio * borrow.value == stx.value * StxPrice * 100.0 &&
              a.safety != Unrated && a.safety == Classify(a.ratio) &&
              (a.liquidationPrice.Some? <==> stx.value != 0.0) &&
              (a.liquidationPrice.Some? ==> stx.value * a.liquidationPrice.value == borrow.value * LiquidationRatio)
  {
    if stx.present && borrow.present then
      if borrow.value > 0.0 then
        var ratio := Ratio(CollateralValue(stx.value, StxPrice), borrow.value);
        Assessment(ratio, Classify(ratio), LiquidationPrice(stx.value, borrow.value))
      else
        Assessment(0.0, Unrated, prev.liquidationPrice)
    else
      prev
  }

  /** The borrow field after one of the two suggestion boxes is clicked. */
  function Suggested(stx: Input, recommended: bool): (b: Input)
    ensures b.present
    ensures CollateralValue(stx.value, StxPrice) > 0.0 ==>
              b.value > 0.0 &&
              Ratio(CollateralValue(stx.value, StxPrice), b.value) == if recommended then 400.0 else 300.0
  {
    var value := CollateralValue(stx.value, StxPrice);
    Input(true, if recommended then RecommendedBorrow(value) else MaxSafeBorrow(value))
  }

  /** Whether the control that raises `e` is on screen in state `s`. */
  predicate Enabled(s: FlowState, e: Event)
    ensures Enabled(s, e) && s.view == DashboardView ==> e == Logout
    ensures Enabled(s, e) && (e.EnterStx? || e.EnterBorrow? || e.PickRecommended? || e.PickMaxSafe?) ==> s.step == 1
  {
    match e
    case Start(_) => s.view == WizardView && s.step == 0
    case EnterStx(_) => s.view == WizardView && s.step == 1
    case EnterBorrow(_) => s.view == WizardView && s.step == 1
    case PickRecommended => s.view == WizardView && s.step == 1 && s.stx.present
    case PickMaxSafe => s.view == WizardView && s.step == 1 && s.stx.present
    case Back => s.view == WizardView && 1 <= s.step <= 3
    case Continue => s.view == WizardView && 1 <= s.step <= 3
    case OpenDashboard => s.view == WizardView && s.step == 4
    case Logout => s.view == DashboardView
  }

  /** Whether the Continue button of step 1 is enabled. */
  predicate AmountsEntered(s: FlowState)
    ensures !AmountsEntered(s) ==> Derive(s.stx, s.borrow, s.risk) == s.risk
  {
    s.stx.present && s.borrow.present
  }

  /** The state after `e`, the risk effect included. */
  function Apply(s: FlowState, e: Event): (t: FlowState)
    requires Enabled(s, e)
    ensures !e.EnterStx? ==> t.stx == s.stx
    ensures !(e.EnterBorrow? || e.PickRecommended? || e.PickMaxSafe?) ==> t.borrow == s.borrow
    ensures t.risk != s.risk ==> e.EnterStx? || e.EnterBorrow? || e.PickRecommended? || e.PickMaxSafe?
    ensures t.view != s.view ==> e == OpenDashboard || e == Logout
    ensures t.step != s.step ==> e.Start? || e == Back || e == Continue || e == Logout
  {
    match e
    case Start(walletConnected) => if walletConnected then s.(step := 1) else s
    case EnterStx(stx) => s.(stx := stx, risk := Derive(stx, s.borrow, s.risk))
    case EnterBorrow(borrow) => s.(borrow := borrow, risk := Derive(s.stx, borrow, s.risk))
    case PickRecommended =>
      var borrow := Suggested(s.stx, true);
      s.(borrow := borrow, risk := Derive(s.stx, borrow, s.risk))
    case PickMaxSafe =>
      var borrow := Suggested(s.stx, false);
      s.(borrow := borrow, risk := Derive(s.stx, borrow, s.risk))
    case Back => s.(step := s.step - 1)
    case Continue => if s.step == 1 && !AmountsEntered(s) then s else s.(step := s.step + 1)
    case OpenDashboard => s.(view := DashboardView)
    case Logout => s.(view := WizardView, step := 0)
  }

  /** What holds in every state the wizard can reach. */
  ghost predicate Inv(s: FlowState)
  {
    && 0 <= s.step <= 4
    && (s.view == DashboardView ==> s.step == 4)
    && (s.step >= 2 ==> AmountsEntered(s))
    && Derive(s.stx, s.borrow, s.risk) == s.risk
    && (s.risk.safety == Unrated ==> s.risk.ratio == 0.0)
    && (s.risk.safety != Unrated ==> s.risk.safety == Classify(s.risk.ratio))
  }

  /** The state after the events `es`, or None if one of them is raised by a
      control that is not on screen. */
  function Run(s: FlowState, es: seq<Event>): Option<FlowState>
    decreases |es|
  {
    if es == [] then Some(s)
    else if Enabled(s, es[0]) then Run(Apply(s, es[0]), es[1..])
    else None
  }

  /** Re-running the effect on its own output changes nothing. */
  lemma DeriveIdempotent(stx: Input, borrow: Input, prev: Assessment)
    ensures Derive(stx, borrow, Derive(stx, borrow, prev)) == Derive(stx, borrow, prev)
  {
  }

  /** Every control keeps the invariant. */
  lemma ApplyPreservesInv(s: FlowState, e: Event)
    requires Inv(s) && Enabled(s, e)
    ensures Inv(Apply(s, e))
  {
  }

  /** Every sequence of on-screen actions keeps the invariant. */
  lemma {:induction false} RunPreservesInv(s: FlowState, es: seq<Event>)
    requires Inv(s) && Run(s, es).Some?
    ensures Inv(Run(s, es).value)
    decreases |es|
  {
    if es != [] {
      ApplyPreservesInv(s, es[0]);
      RunPreservesInv(Apply(s, es[0]), es[1..]);
    }
  }

  /** Every reachable state has its step in 0..4, is on the dashboard only at
      step 4, has both amounts from step 2 on, and shows an assessment that
      is current for the amounts entered. */
  lemma Reachable(es: seq<Event>)
    requires Run(Init(), es).Some?
    ensures var t := Run(Init(), es).value;
      && 0 <= t.step <= 4
      && (t.view == DashboardView ==> t.step == 4 && AmountsEntered(t))
      && (t.step >= 2 ==> AmountsEntered(t))
      && Derive(t.stx, t.borrow, t.risk) == t.risk
  {
    RunPreservesInv(Init(), es);
  }

  /** Forward moves go one step at a time: 0 to 1 only with wallet data,
      1 to 2 only with both amounts, 2 to 3 and 3 to 4 unconditionally. */
  lemma ForwardMoves(s: FlowState, e: Event)
    requires 0 <= s.step <= 4 && Enabled(s, e)
    ensures Apply(s, e).step > s.step ==> Apply(s, e).step == s.step + 1
    ensures Apply(s, e).step > s.step && s.step == 0 ==> e == Event.Start(true)
    ensures Apply(s, e).step > s.step ==> s.step != 1 || AmountsEntered(s)
    ensures e == Continue && s.step == 1 ==> (Apply(s, e).step == 2 <==> AmountsEntered(s))
    ensures e == Continue && (s.step == 2 || s.step == 3) ==> Apply(s, e).step == s.step + 1
  {
  }

  /** The only backward moves are 1 to 0, 2 to 1 and 3 to 2, and logout. */
  lemma BackwardMoves(s: FlowState, e: Event)
    requires Enabled(s, e)
    ensures Apply(s, e).step < s.step ==>
              (e == Back && 1 <= s.step <= 3 && Apply(s, e).step == s.step - 1) ||
              (e == Logout && Apply(s, e).step == 0)
  {
  }

  /** The dashboard is entered only from step 4. */
  lemma DashboardOnlyFromFinish(s: FlowState, e: Event)
    requires Enabled(s, e) && s.view == WizardView && Apply(s, e).view == DashboardView
    ensures s.step == 4 && e == OpenDashboard
  {
  }

  /** Logout returns to the first wizard step and keeps what was entered. */
  lemma LogoutResets(s: FlowState)
    requires Enabled(s, Logout)
    ensures Apply(s, Logout) == FlowState(WizardView, 0, s.stx, s.borrow, s.risk)
  {
  }

  /** Picking the max-safe amount on positive collateral rates the position
      very safe at exactly 300%; the recommended amount gives 400%. */
  lemma SuggestionsRating(s: FlowState)
    requires Enabled(s, PickMaxSafe) && s.stx.value > 0.0
    ensures Apply(s, PickMaxSafe).risk.ratio == 300.0
    ensures Apply(s, PickMaxSafe).risk.safety == VerySafe
    ensures Apply(s, PickRecommended).risk.ratio == 400.0
    ensures Apply(s, PickRecommended).risk.safety == VerySafe
  {
  }

  /** An empty borrow field keeps the wizard on the Amount step. */
  lemma EmptyBorrowBlocks(s: FlowState)
    requires Enabled(s, Continue) && s.step == 1 && !s.borrow.present
    ensures Apply(s, Continue) == s
  {
  }

  /** The wizard state held in place; one method per control. Each method
      states its new state through `Apply`. */
  class Wizard {
    var view: View
    var step: int
    var stxAmount: Input
    var borrowAmount: Input
    var collateralRatio: real
    var safetyLevel: SafetyLevel
    var liquidationPrice: Option<real>

    function State(): FlowState
      reads this
    {
      FlowState(view, step, stxAmount, borrowAmount, Assessment(collateralRatio, safetyLevel, liquidationPrice))
    }

    ghost predicate Valid()
      reads this
    {
      Inv(State())
    }

    constructor ()
      ensures Valid() && State() == Init()
    {
      view := WizardView;
      step := 0;
      stxAmount := Blank;
      borrowAmount := Blank;
      collateralRatio := 0.0;
      safetyLevel := Unrated;
      liquidationPrice := Some(0.0);
    }

    /** The risk effect, run after either amount changes. */
    method RefreshRisk()
      modifies this`collateralRatio, this`safetyLevel, this`liquidationPrice
      ensures Assessment(collateralRatio, safetyLevel, liquidationPrice)
           == Derive(stxAmount, borrowAmount, old(Assessment(collateralRatio, safetyLevel, liquidationPrice)))
    {
      if stxAmount.present && borrowAmount.present {
        var value := CollateralValue(stxAmount.value, StxPrice);
        var amount := borrowAmount.value;
        if amount > 0.0 {
          var ratio := Ratio(value, amount);
          collateralRatio := ratio;
          liquidationPrice := LiquidationPrice(stxAmount.value, amount);
          if ratio >= 300.0 {
            safetyLevel := VerySafe;
          } else if ratio >= 200.0 {
            safetyLevel := Safe;
          } else if ratio >= 170.0 {
            safetyLevel := Risky;
          } else {
            safetyLevel := Danger;
          }
        } else {
          collateralRatio := 0.0;
          safetyLevel := Unrated;
        }
      }
    }

    /** "Let's Go" on step 0; only shown when wallet data is present. */
    method Start(walletConnected: bool)
      requires Valid() && Enabled(State(), Event.Start(walletConnected))
      modifies this
      ensures Valid() && State() == Apply(old(State()), Event.Start(walletConnected))
    {
      if walletConnected {
        step := 1;
      }
    }

    /** The deposit field of step 1. */
    method EnterStx(stx: Input)
      requires Valid() && Enabled(State(), Event.EnterStx(stx))
      modifies this
      ensures Valid() && State() == Apply(old(State()), Event.EnterStx(stx))
    {
      ApplyPreservesInv(State(), Event.EnterStx(stx));
      stxAmount := stx;
      RefreshRisk();
    }

    /** The borrow field of step 1. */
    method EnterBorrow(borrow: Input)
      requires Valid() && Enabled(State(), Event.EnterBorrow(borrow))
      modifies this
      ensures Valid() && State() == Apply(old(State()), Event.EnterBorrow(borrow))
    {
      ApplyPreservesInv(State(), Event.EnterBorrow(borrow));
      borrowAmount := borrow;
      RefreshRisk();
    }

    /** The "Recommended" box of step 1, shown once a deposit is entered. */
    method PickRecommended()
      requires Valid() && Enabled(State(), Event.PickRecommended)
      modifies this
      ensures Valid() && State() == Apply(old(State()), Event.PickRecommended)
    {
      ApplyPreservesInv(State(), Event.PickRecommended);
      borrowAmount := Suggested(stxAmount, true);
      RefreshRisk();
    }

    /** The "Max Safe" box of step 1, shown once a deposit is entered. */
    method PickMaxSafe()
      requires Valid() && Enabled(State(), Event.PickMaxSafe)
      modifies this
      ensures Valid() && State() == Apply(old(State()), Event.PickMaxSafe)
    {
      ApplyPreservesInv(State(), Event.PickMaxSafe);
      borrowAmount := Suggested(stxAmount, false);
      RefreshRisk();
    }

    /** The Back buttons of steps 1, 2 and 3. */
    method Back()
      requires Valid() && Enabled(State(), Event.Back)
      modifies this
      ensures Valid() && State() == Apply(old(State()), Event.Back)
    {
      if step == 1 {
        step := 0;
      } else if step == 2 {
        step := 1;
      } else {
        step := 2;
      }
    }

    /** The Continue buttons of steps 1, 2 and 3; the one of step 1 is
        disabled while either amount field is empty. */
    method Continue()
      requires Valid() && Enabled(State(), Event.Continue)
      modifies this
      ensures Valid() && State() == Apply(old(State()), Event.Continue)
    {
      if step == 1 {
        if stxAmount.present && borrowAmount.present {
          step := 2;
        }
      } else if step == 2 {
        step := 3;
      } else {
        step := 4;
      }
    }

    /** "Go to Dashboard" on step 4. */
    method OpenDashboard()
      requires Valid() && Enabled(State(), Event.OpenDashboard)
      modifies this
      ensures Valid() && State() == Apply(old(State()), Event.OpenDashboard)
    {
      view := DashboardView;
    }

    /** The logout button of the dashboard; the amounts are kept. */
    method Logout()
      requires Valid() && Enabled(State(), Event.Logout)
      modifies this
      ensures Valid() && State() == Apply(old(State()), Event.Logout)
    {
      view := WizardView;
      step := 0;
    }
  }
}
