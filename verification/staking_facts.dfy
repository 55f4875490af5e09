/**
 * Properties of the staking calculator: the liability identity, the sign of
 * the stakes on valid inputs, how far the two outcomes of the hedge are apart,
 * the quality flag, the fallback branch and two worked examples.
 */
module StakingFacts {
  import opened Options
  import opened Cents
  import opened Calculator

  /**
   * On the inputs the form is meant to accept (lay odds above 1, commission
   * in [0, 100), a non-negative stake, back odds at least 1) the denominator is
   * positive, so every bet type has figures, and the lay stake and liability
   * are non-negative before and after rounding.
   */
  lemma ValidInputsGiveNonNegativeStakes(i: Inputs)
    requires i.layOdds > 1.0
    requires 0.0 <= i.commissionPercent < 100.0
    requires i.backStake >= 0.0
    requires i.backOdds >= 1.0
    ensures Denominator(i) > 0.0
    ensures RawFigures(i).Some? && Calculate(i).Some?
    ensures 0.0 <= RawFigures(i).value.layStake && 0.0 <= RawFigures(i).value.liability
    ensures 0.0 <= Calculate(i).value.layStake && 0.0 <= Calculate(i).value.liability
  {
    RawNonNegative(i);
    var f := RawFigures(i).value;
    var q := Calculate(i).value;
    RoundCentsNonNegative(f.layStake);
    RoundCentsNonNegative(f.liability);
    assert q.layStake == RoundCents(f.layStake);
    assert q.liability == RoundCents(f.liability);
  }

  /** The unrounded half of `ValidInputsGiveNonNegativeStakes`. */
  lemma RawNonNegative(i: Inputs)
    requires i.layOdds > 1.0
    requires 0.0 <= i.commissionPercent < 100.0
    requires i.backStake >= 0.0
    requires i.backOdds >= 1.0
    ensures Denominator(i) > 0.0
    ensures RawFigures(i).Some?
    ensures 0.0 <= RawFigures(i).value.layStake && 0.0 <= RawFigures(i).value.liability
  {
    DenominatorPositive(i);
    match i.betType
    case Qualifying => QualifyingNonNegative(i, Denominator(i));
    case Snr => SnrNonNegative(i, Denominator(i));
    case Sr => SrNonNegative(i, Denominator(i));
    case Other => assert RawFigures(i) == Some(Figures(0.0, 0.0, 0.0, 0.0, 0.0));
  }

  lemma QualifyingNonNegative(i: Inputs, d: real)
    requires i.betType == Qualifying && d == Denominator(i) && d > 0.0
    requires i.layOdds > 1.0 && i.backStake >= 0.0 && i.backOdds >= 1.0
    ensures RawFigures(i) == Some(QualifyingFigures(i, d))
    ensures 0.0 <= RawFigures(i).value.layStake && 0.0 <= RawFigures(i).value.liability
  {
    var f := QualifyingFigures(i, d);
    ProductNonNegative(i.backOdds, i.backStake);
    NonNegativeFromShape(f.layStake, d, i.backOdds * i.backStake, i.layOdds, f.liability);
  }

  lemma SnrNonNegative(i: Inputs, d: real)
    requires i.betType == Snr && d == Denominator(i) && d > 0.0
    requires i.layOdds > 1.0 && i.backStake >= 0.0 && i.backOdds >= 1.0
    ensures RawFigures(i) == Some(SnrFigures(i, d))
    ensures 0.0 <= RawFigures(i).value.layStake && 0.0 <= RawFigures(i).value.liability
  {
    var f := SnrFigures(i, d);
    ProductNonNegative(i.backOdds - 1.0, i.backStake);
    NonNegativeFromShape(f.layStake, d, (i.backOdds - 1.0) * i.backStake, i.layOdds, f.liability);
  }

  lemma SrNonNegative(i: Inputs, d: real)
    requires i.betType == Sr && d == Denominator(i) && d > 0.0
    requires i.layOdds > 1.0 && i.backStake >= 0.0 && i.backOdds >= 1.0
    ensures RawFigures(i) == Some(SrFigures(i, d))
    ensures 0.0 <= RawFigures(i).value.layStake && 0.0 <= RawFigures(i).value.liability
  {
    var f := SrFigures(i, d);
    ProductNonNegative(i.backOdds, i.backStake);
    NonNegativeFromShape(f.layStake, d, i.backOdds * i.backStake, i.layOdds, f.liability);
  }

  /** A lay stake solving l * d == e with d > 0 and e >= 0, and its liability, are non-negative. */
  lemma NonNegativeFromShape(l: real, d: real, e: real, lo: real, liability: real)
    requires d > 0.0 && e >= 0.0 && l * d == e && lo > 1.0 && liability == l * (lo - 1.0)
    ensures l >= 0.0 && liability >= 0.0
  {
    SignOfQuotient(l, d, e);
    ProductNonNegative(l, lo - 1.0);
  }

  /** With lay odds above 1 and commission in [0, 100) the denominator is positive. */
  lemma DenominatorPositive(i: Inputs)
    requires i.layOdds > 1.0
    requires 0.0 <= i.commissionPercent < 100.0
    ensures Denominator(i) > 0.0
  {
    DenominatorBound(i.layOdds, Rate(i));
  }

  /** lo - (lo - 1) c exceeds 1 when lo > 1 and c < 1: the commission eats less than lo - 1. */
  lemma DenominatorBound(lo: real, c: real)
    requires lo > 1.0 && c < 1.0
    ensures lo - (lo - 1.0) * c > 1.0
  {
    var gap := (lo - 1.0) * (1.0 - c);
    ProductPositive(lo - 1.0, 1.0 - c);
    assert gap == (lo - 1.0) - (lo - 1.0) * c;
    assert lo - (lo - 1.0) * c == 1.0 + gap;
  }

  lemma ProductPositive(a: real, b: real)
    requires a > 0.0 && b > 0.0
    ensures a * b > 0.0
  {
  }

  lemma ProductNonNegative(a: real, b: real)
    requires a >= 0.0 && b >= 0.0
    ensures a * b >= 0.0
  {
  }

  /** x * d == e with d > 0 and e >= 0 forces x >= 0. */
  lemma SignOfQuotient(x: real, d: real, e: real)
    requires d > 0.0 && e >= 0.0 && x * d == e
    ensures x >= 0.0
  {
  }

  /**
   * The two outcomes for every bet type with a formula: a back win earns the
   * back return less the liability, a lay win earns the lay stake net of
   * commission less the back stake lost.
   */
  lemma RawOutcomes(i: Inputs)
    requires Divides(i.betType) && Denominator(i) != 0.0
    ensures Settles(i, RawFigures(i).value)
  {
    var d := Denominator(i);
    var f := RawFigures(i).value;
    match i.betType
    case Qualifying => QualifyingOutcomes(i, d, f);
    case Snr => SnrOutcomes(i, d, f);
    case Sr => SrOutcomes(i, d, f);
  }

  lemma QualifyingOutcomes(i: Inputs, d: real, f: Figures)
    requires i.betType == Qualifying && d == Denominator(i) && d != 0.0 && f == QualifyingFigures(i, d)
    ensures Settles(i, f)
  {
  }

  lemma SnrOutcomes(i: Inputs, d: real, f: Figures)
    requires i.betType == Snr && d == Denominator(i) && d != 0.0 && f == SnrFigures(i, d)
    ensures Settles(i, f)
  {
  }

  lemma SrOutcomes(i: Inputs, d: real, f: Figures)
    requires i.betType == Sr && d == Denominator(i) && d != 0.0 && f == SrFigures(i, d)
    ensures Settles(i, f)
  {
  }

  /**
   * The gap between the two outcomes of the hedge: for every bet type with a
   * formula, back-win profit minus lay-win profit is layStake * c * (2 - layOdds),
   * where c is the commission rate.
   */
  lemma HedgeGap(i: Inputs)
    requires Divides(i.betType) && Denominator(i) != 0.0
    ensures var f := RawFigures(i).value;
      f.backProfit - f.layProfit == f.layStake * Rate(i) * (2.0 - i.layOdds)
  {
    var d := Denominator(i);
    var f := RawFigures(i).value;
    match i.betType
    case Qualifying => QualifyingGap(i, d, f);
    case Snr => SnrGap(i, d, f);
    case Sr => SrGap(i, d, f);
  }

  lemma QualifyingGap(i: Inputs, d: real, f: Figures)
    requires i.betType == Qualifying && d == Denominator(i) && d != 0.0 && f == QualifyingFigures(i, d)
    ensures f.backProfit - f.layProfit == f.layStake * Rate(i) * (2.0 - i.layOdds)
  {
    var l, c, lo := f.layStake, Rate(i), i.layOdds;
    Spread(l, lo - 1.0, 1.0 - c);
    assert f.backProfit - f.layProfit == i.backOdds * i.backStake - l * (lo - c);
    GapAlgebra(l, c, lo, i.backOdds * i.backStake, f.backProfit - f.layProfit);
  }

  lemma SnrGap(i: Inputs, d: real, f: Figures)
    requires i.betType == Snr && d == Denominator(i) && d != 0.0 && f == SnrFigures(i, d)
    ensures f.backProfit - f.layProfit == f.layStake * Rate(i) * (2.0 - i.layOdds)
  {
    var l, c, lo := f.layStake, Rate(i), i.layOdds;
    Spread(l, lo - 1.0, 1.0 - c);
    assert f.backProfit - f.layProfit == (i.backOdds - 1.0) * i.backStake - l * (lo - c);
    GapAlgebra(l, c, lo, (i.backOdds - 1.0) * i.backStake, f.backProfit - f.layProfit);
  }

  lemma SrGap(i: Inputs, d: real, f: Figures)
    requires i.betType == Sr && d == Denominator(i) && d != 0.0 && f == SrFigures(i, d)
    ensures f.backProfit - f.layProfit == f.layStake * Rate(i) * (2.0 - i.layOdds)
  {
    var l, c, lo := f.layStake, Rate(i), i.layOdds;
    Spread(l, lo - 1.0, 1.0 - c);
    assert f.backProfit - f.layProfit == i.backOdds * i.backStake - l * (lo - c);
    GapAlgebra(l, c, lo, i.backOdds * i.backStake, f.backProfit - f.layProfit);
  }

  /** Distributivity, stated once so the solver need not search for it. */
  lemma Spread(l: real, a: real, b: real)
    ensures l * a + l * b == l * (a + b)
    ensures a * l + b * l == (a + b) * l
  {
  }

  /**
   * The algebra behind `HedgeGap`: if the lay stake l solves
   * l * (lo - (lo - 1) c) == e and the gap is e - l * (lo - c), the gap is
   * l * c * (2 - lo).
   */
  lemma GapAlgebra(l: real, c: real, lo: real, e: real, gap: real)
    requires l * (lo - (lo - 1.0) * c) == e
    requires gap == e - l * (lo - c)
    ensures gap == l * c * (2.0 - lo)
  {
    assert l * (lo - (lo - 1.0) * c) == l * lo - l * lo * c + l * c;
  }

  /**
   * The two outcomes coincide exactly when there is no commission, the lay
   * odds are 2, or the lay stake is zero.
   */
  lemma OutcomesEqualIff(i: Inputs)
    requires Divides(i.betType) && Denominator(i) != 0.0
    ensures var f := RawFigures(i).value;
      f.backProfit == f.layProfit <==> Rate(i) == 0.0 || i.layOdds == 2.0 || f.layStake == 0.0
  {
    HedgeGap(i);
    var f := RawFigures(i).value;
    ZeroProduct(f.layStake, Rate(i), 2.0 - i.layOdds);
  }

  /** A product of three reals vanishes exactly when a factor does. */
  lemma ZeroProduct(a: real, b: real, c: real)
    ensures a * b * c == 0.0 <==> a == 0.0 || b == 0.0 || c == 0.0
  {
    if a != 0.0 && b != 0.0 {
      assert a * b != 0.0;
    }
  }

  /**
   * Without commission the hedge is exact: for every bet type with a formula
   * the back-win profit, the lay-win profit and the average are all equal.
   */
  lemma ZeroCommissionHedge(i: Inputs)
    requires Divides(i.betType) && i.commissionPercent == 0.0 && i.layOdds != 0.0
    ensures RawFigures(i).Some?
    ensures var f := RawFigures(i).value;
      f.backProfit == f.layProfit && f.total == f.backProfit
  {
    assert Denominator(i) == i.layOdds;
    HedgeGap(i);
  }

  /** The quality flag reads the unrounded average, per bet type. */
  lemma QualityFlag(i: Inputs)
    requires Calculate(i).Some?
    ensures i.betType == Qualifying ==>
      (Calculate(i).value.isGoodBet <==> -1.0 < RawFigures(i).value.total < 1.0)
    ensures i.betType != Qualifying ==>
      (Calculate(i).value.isGoodBet <==> RawFigures(i).value.total > 0.0)
  {
  }

  /** An unrecognised bet type yields all-zero figures and a bad-bet flag. */
  lemma UnrecognisedTypeQuotesZero(i: Inputs)
    requires i.betType == Other
    ensures Calculate(i) == Some(Quote(0.0, 0.0, 0.0, 0.0, 0.0, false))
  {
    RoundCentsUnique(0.0, 0.0);
  }

  /**
   * The form's defaults: stake 10 at back odds 2.0, lay odds 2.1, commission 2%.
   * The lay stake is 20 / 2.078.
   */
  lemma QualifyingExample()
    ensures Calculate(Inputs(Qualifying, 10.0, 2.0, 2.1, 2.0))
         == Some(Quote(9.62, 10.59, -0.59, -0.57, -0.58, true))
  {
    var i := Inputs(Qualifying, 10.0, 2.0, 2.1, 2.0);
    assert Denominator(i) == 2.078;
    var f := RawFigures(i).value;
    assert f.layStake == 20.0 / 2.078;
    RoundCentsUnique(f.layStake, 9.62);
    RoundCentsUnique(f.liability, 10.59);
    RoundCentsUnique(f.backProfit, -0.59);
    RoundCentsUnique(f.layProfit, -0.57);
    RoundCentsUnique(f.total, -0.58);
  }
  /**
   * `OutcomesEqualIff` is about the unrounded figures: rounding to the cent can
   * make the quoted outcomes equal although none of its three conditions holds.
   */
  lemma RoundingCanEqualiseOutcomes()
    ensures var i := Inputs(Qualifying, 1.0, 2.0, 2.1, 2.0);
      && Calculate(i) == Some(Quote(0.96, 1.06, -0.06, -0.06, -0.06, true))
      && RawFigures(i).value.backProfit != RawFigures(i).value.layProfit
  {
    var i := Inputs(Qualifying, 1.0, 2.0, 2.1, 2.0);
    assert Denominator(i) == 2.078;
    var f := RawFigures(i).value;
    assert f.layStake == 2.0 / 2.078;
    RoundCentsUnique(f.layStake, 0.96);
    RoundCentsUnique(f.liability, 1.06);
    RoundCentsUnique(f.backProfit, -0.06);
    RoundCentsUnique(f.layProfit, -0.06);
    RoundCentsUnique(f.total, -0.06);
  }


  /** A stake-not-returned free bet: stake 20 at 3.0, lay odds 3.2, commission 5%. */
  lemma SnrExample()
    ensures Calculate(Inputs(Snr, 20.0, 3.0, 3.2, 5.0))
         == Some(Quote(12.94, 28.48, 11.52, 12.30, 11.91, true))
  {
    var i := Inputs(Snr, 20.0, 3.0, 3.2, 5.0);
    assert Denominator(i) == 3.09;
    var f := RawFigures(i).value;
    assert f.layStake == 40.0 / 3.09;
    RoundCentsUnique(f.layStake, 12.94);
    RoundCentsUnique(f.liability, 28.48);
    RoundCentsUnique(f.backProfit, 11.52);
    RoundCentsUnique(f.layProfit, 12.30);
    RoundCentsUnique(f.total, 11.91);
  }
}
