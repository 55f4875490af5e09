/**
 * The staking calculator of the matched-betting tracker (`calculateMatchedBet`):
 * from a back bet's stake and odds and the exchange's lay odds and commission it
 * derives the lay stake, the liability, the profit if the back bet wins, the
 * profit if the lay bet wins, their average, and a quality flag.
 *
 * Arithmetic is exact (`real`); every figure the calculator hands out is
 * rounded to the cent, while the quality flag looks at the unrounded average.
 */
module Calculator {
  import opened Options
  import opened Cents

  /**
   * The bet-type string the calculator switches on: "qualifying", "snr" (free
   * bet, stake not returned), "sr" (free bet, stake returned) or anything else.
   */
  datatype BetType = Qualifying | Snr | Sr | Other

  /** The form inputs the calculator reads; the commission is a percentage. */
  datatype Inputs = Inputs(
    betType: BetType,
    backStake: real,
    backOdds: real,
    layOdds: real,
    commissionPercent: real)

  /** The five figures before rounding. */
  datatype Figures = Figures(
    layStake: real,
    liability: real,
    backProfit: real,
    layProfit: real,
    total: real)

  /** What the calculator returns: the five figures rounded, and the flag. */
  datatype Quote = Quote(
    layStake: real,
    liability: real,
    backProfit: real,
    layProfit: real,
    totalResult: real,
    isGoodBet: bool)

  function Abs(x: real): real {
    if x < 0.0 then -x else x
  }

  /** The commission as a fraction. */
  function Rate(i: Inputs): real {
    i.commissionPercent / 100.0
  }

  /** The divisor shared by the three lay-stake formulas. */
  function Denominator(i: Inputs): real {
    i.layOdds - (i.layOdds - 1.0) * Rate(i)
  }

  /**
   * The amount the lay stake is scaled from: the whole back return for a
   * qualifying bet and a stake-returned free bet, the back winnings alone for
   * a stake-not-returned free bet.
   */
  function Exposure(i: Inputs): real {
    match i.betType
    case Snr => (i.backOdds - 1.0) * i.backStake
    case _ => i.backOdds * i.backStake
  }

  /** A bet type with a formula (every type except the fallback). */
  predicate Divides(t: BetType) {
    t != Other
  }

  /** Dividing by a non-zero `d` and multiplying back gives the numerator. */
  lemma DivideThenScale(a: real, d: real, b: real)
    requires d != 0.0
    ensures (a / d) * b * d == a * b
  {
    calc {
      (a / d) * b * d;
      (a / d) * d * b;
      a * b;
    }
  }

  /**
   * What every formula set shares: the liability is what the lay bet pays out
   * at the lay odds, and the total is the mean of the two outcomes.
   */
  predicate Shaped(i: Inputs, f: Figures) {
    && f.liability == f.layStake * (i.layOdds - 1.0)
    && f.total == (f.backProfit + f.layProfit) / 2.0
  }

  /**
   * What the back bet pays beyond its liability when it wins: the winnings
   * alone, except that a stake-returned free bet also pays back its stake.
   */
  function BackReturn(i: Inputs): real {
    if i.betType == Sr then i.backOdds * i.backStake else (i.backOdds - 1.0) * i.backStake
  }

  /** The back stake lost when the lay side wins: only a qualifying bet risks real money. */
  function StakeLost(i: Inputs): real {
    if i.betType == Qualifying then i.backStake else 0.0
  }

  /**
   * The two outcomes every formula set shares: a back win earns the back
   * return less the liability paid to the exchange; a lay win earns the lay
   * stake net of commission less the back stake lost.
   */
  predicate Settles(i: Inputs, f: Figures) {
    && f.backProfit == BackReturn(i) - f.liability
    && f.layProfit == f.layStake * (1.0 - Rate(i)) - StakeLost(i)
  }

  /** The qualifying-bet formulas; `d` is the (non-zero) denominator. */
  function QualifyingFigures(i: Inputs, d: real): (f: Figures)
    requires i.betType == Qualifying && d == Denominator(i) && d != 0.0
    ensures f.layStake * d == Exposure(i)
    ensures Shaped(i, f)
  {
    var layStake := (i.backOdds * i.backStake) / d;
    var liability := layStake * (i.layOdds - 1.0);
    var backProfit := (i.backOdds - 1.0) * i.backStake - liability;
    var layProfit := layStake * (1.0 - Rate(i)) - i.backStake;
    Figures(layStake, liability, backProfit, layProfit, (backProfit + layProfit) / 2.0)
  }

  /** The free-bet formulas when the stake is not returned. */
  function SnrFigures(i: Inputs, d: real): (f: Figures)
    requires i.betType == Snr && d == Denominator(i) && d != 0.0
    ensures f.layStake * d == Exposure(i)
    ensures Shaped(i, f)
  {
    var layStake := ((i.backOdds - 1.0) / d) * i.backStake;
    DivideThenScale(i.backOdds - 1.0, d, i.backStake);
    var liability := layStake * (i.layOdds - 1.0);
    var backProfit := (i.backOdds - 1.0) * i.backStake - liability;
    var layProfit := layStake * (1.0 - Rate(i));
    Figures(layStake, liability, backProfit, layProfit, (backProfit + layProfit) / 2.0)
  }

  /** The free-bet formulas when the stake is returned. */
  function SrFigures(i: Inputs, d: real): (f: Figures)
    requires i.betType == Sr && d == Denominator(i) && d != 0.0
    ensures f.layStake * d == Exposure(i)
    ensures Shaped(i, f)
  {
    var layStake := (i.backOdds * i.backStake) / d;
    var liability := layStake * (i.layOdds - 1.0);
    var backProfit := i.backOdds * i.backStake - liability;
    var layProfit := layStake * (1.0 - Rate(i));
    Figures(layStake, liability, backProfit, layProfit, (backProfit + layProfit) / 2.0)
  }

  /**
   * The unrounded figures. `None` stands for the non-finite numbers JavaScript
   * produces when a formula divides by a zero denominator.
   */
  function RawFigures(i: Inputs): (r: Option<Figures>)
    ensures r.None? <==> Divides(i.betType) && Denominator(i) == 0.0
    ensures r.Some? ==> Shaped(i, r.value)
    ensures r.Some? && Divides(i.betType) ==> r.value.layStake * Denominator(i) == Exposure(i)
    ensures !Divides(i.betType) ==> r == Some(Figures(0.0, 0.0, 0.0, 0.0, 0.0))
  {
    var d := Denominator(i);
    if !Divides(i.betType) then Some(Figures(0.0, 0.0, 0.0, 0.0, 0.0))
    else if d == 0.0 then None
    else Some(Formulas(i, d))
  }

  /** The formula set for a bet type that has one. */
  function Formulas(i: Inputs, d: real): (f: Figures)
    requires Divides(i.betType) && d == Denominator(i) && d != 0.0
    ensures f.layStake * d == Exposure(i)
    ensures Shaped(i, f)
  {
    match i.betType
    case Qualifying => QualifyingFigures(i, d)
    case Snr => SnrFigures(i, d)
    case Sr => SrFigures(i, d)
  }

  /**
   * The quality flag, judged on the unrounded average: a qualifying bet is good
   * when it loses (or wins) less than one unit, any other type when it profits.
   */
  predicate IsGood(t: BetType, total: real) {
    if t == Qualifying then Abs(total) < 1.0 else total > 0.0
  }

  /** `calculateMatchedBet`. */
  function Calculate(i: Inputs): (r: Option<Quote>)
    ensures r.None? <==> RawFigures(i).None?
    ensures r.Some? ==>
      var f := RawFigures(i).value;
      var q := r.value;
      && IsCents(q.layStake) && IsCents(q.liability) && IsCents(q.backProfit)
      && IsCents(q.layProfit) && IsCents(q.totalResult)
      && f.layStake - 0.005 < q.layStake <= f.layStake + 0.005
      && f.liability - 0.005 < q.liability <= f.liability + 0.005
      && f.backProfit - 0.005 < q.backProfit <= f.backProfit + 0.005
      && f.layProfit - 0.005 < q.layProfit <= f.layProfit + 0.005
      && f.total - 0.005 < q.totalResult <= f.total + 0.005
      && (q.isGoodBet <==> IsGood(i.betType, f.total))
  {
    match RawFigures(i)
    case None => None
    case Some(f) =>
      Some(Quote(
        RoundCents(f.layStake),
        RoundCents(f.liability),
        RoundCents(f.backProfit),
        RoundCents(f.layProfit),
        RoundCents(f.total),
        IsGood(i.betType, f.total)))
  }
}
