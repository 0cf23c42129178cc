/** Multi-layer signal generation (backend/ai_agent/signal_generator.py).
    The generator is stateless, so every step is a function: the layer
    scores, their weighted fusion, the signal class, the confidence, the
    trade levels and the position size, and finally `GenerateSignal`,
    which assembles them or falls back to a neutral HOLD record when the
    one step that can raise does so. */
module SignalGenerator {
  import opened Wrappers
  import opened Models
  import opened Technical

  // ---------------------------------------------------------------------
  // Technical layer

  /** Trend of a `TechnicalIndicators` record. No price is available, so
      the middle band stands in for it (an `or 0` fallback that changes
      nothing, since a zero middle band is already 0). */
  function DetermineTrend(t: TechnicalIndicators): (r: Trend)
    ensures r == UnknownTrend <==> !(Truthy(t.ema20) && Truthy(t.ema50) && Truthy(t.ema200))
    ensures r == StrongUptrend <==> r != UnknownTrend && t.bbMiddle > t.ema200.value
                                    && t.ema20.value > t.ema50.value > t.ema200.value
    ensures r == Uptrend <==> r != UnknownTrend && t.bbMiddle > t.ema200.value
                              && !(t.ema20.value > t.ema50.value > t.ema200.value)
    ensures r == StrongDowntrend <==> r != UnknownTrend && t.bbMiddle < t.ema200.value
                                      && t.ema20.value < t.ema50.value < t.ema200.value
    ensures r == Downtrend <==> r != UnknownTrend && t.bbMiddle < t.ema200.value
                                && !(t.ema20.value < t.ema50.value < t.ema200.value)
    ensures r == Sideways <==> r != UnknownTrend && t.bbMiddle == t.ema200.value
  {
    TrendLabel(t.bbMiddle, t.ema20, t.ema50, t.ema200)
  }

  /** Band signal with the middle band as price proxy: OVERSOLD below the
      lower band, OVERBOUGHT above the upper one, NEUTRAL otherwise or when
      any band is zero. It never reports a squeeze. */
  function DetermineBbSignal(t: TechnicalIndicators): (l: Label)
    ensures l in {Oversold, Overbought, Neutral}
    ensures l == Oversold <==>
              t.bbUpper != 0.0 && t.bbMiddle != 0.0 && t.bbLower != 0.0 && t.bbMiddle < t.bbLower
    ensures l == Overbought <==>
              t.bbUpper != 0.0 && t.bbMiddle != 0.0 && t.bbLower != 0.0
              && t.bbLower <= t.bbMiddle && t.bbMiddle > t.bbUpper
  {
    if t.bbUpper == 0.0 || t.bbMiddle == 0.0 || t.bbLower == 0.0 then Neutral
    else if t.bbMiddle < t.bbLower then Oversold
    else if t.bbMiddle > t.bbUpper then Overbought
    else Neutral
  }

  /** Bands in their natural order (lower <= middle <= upper) always give
      NEUTRAL: with the middle band as price, the band layer can only fire
      on misordered bands. */
  lemma OrderedBandsNeutral(t: TechnicalIndicators)
    requires t.bbLower <= t.bbMiddle <= t.bbUpper
    ensures DetermineBbSignal(t) == Neutral
  {
  }

  /** The indicator dictionary handed to `calculate_technical_score`. */
  function TechnicalScoreInput(t: TechnicalIndicators): (i: ScoreInput)
    ensures i.rsi == Some(t.rsi) && i.volumeRatio == t.volumeRatio
    ensures i.macdSignal == Bullish <==> t.macdHistogram > 0.0
    ensures i.macdSignal == Bearish <==> t.macdHistogram <= 0.0
    ensures i.trend == DetermineTrend(t) && i.bbSignal == DetermineBbSignal(t)
  {
    ScoreInput(Some(t.rsi), if t.macdHistogram > 0.0 then Bullish else Bearish,
               DetermineTrend(t), DetermineBbSignal(t), t.volumeRatio)
  }

  /** `_calculate_technical_score`: the technical score of the dictionary.
      With no RSI reading, no volume ratio, no EMAs and bands in their
      natural order, every layer but MACD is silent, and MACD is never
      neutral here: such indicators score 70 or 30, never 50. */
  function CalculateTechnicalScore(t: TechnicalIndicators): (r: Percent)
    ensures t.rsi == 0.0 && !Truthy(t.volumeRatio) && !Truthy(t.ema20) && t.bbLower <= t.bbMiddle <= t.bbUpper ==>
              r == if t.macdHistogram > 0.0 then 70 else 30
  {
    TechnicalScore(TechnicalScoreInput(t))
  }

  /** The MACD layer never stays neutral here: a histogram of exactly zero
      counts as bearish, so the MACD contribution is always +20 or -20. */
  lemma MacdNeverNeutral(t: TechnicalIndicators)
    ensures MacdPoints(TechnicalScoreInput(t).macdSignal) == (if t.macdHistogram > 0.0 then 20 else -20)
  {
  }

  // ---------------------------------------------------------------------
  // Macro layer

  /** Dollar-index contribution: a weak dollar is bullish for crypto. */
  function DxyPoints(dxy: Option<real>): (p: int)
    ensures -20 <= p <= 20
    ensures p > 0 <==> Truthy(dxy) && dxy.value < 100.0
    ensures p < 0 <==> Truthy(dxy) && dxy.value > 105.0
  {
    if !Truthy(dxy) then 0
    else if dxy.value < 95.0 then 20
    else if dxy.value < 100.0 then 10
    else if dxy.value > 110.0 then -20
    else if dxy.value > 105.0 then -10
    else 0
  }

  /** Volatility-index contribution: low fear is bullish. */
  function VixPoints(vix: Option<real>): (p: int)
    ensures -15 <= p <= 15
    ensures p > 0 <==> Truthy(vix) && vix.value < 20.0
    ensures p < 0 <==> Truthy(vix) && vix.value > 25.0
  {
    if !Truthy(vix) then 0
    else if vix.value < 15.0 then 15
    else if vix.value < 20.0 then 5
    else if vix.value > 30.0 then -15
    else if vix.value > 25.0 then -5
    else 0
  }

  /** Fear & greed contribution, contrarian: extreme fear is a buying
      opportunity. An index of 0 is falsy and contributes nothing. */
  function FearGreedPoints(fgi: Option<Percent>): (p: int)
    ensures -15 <= p <= 15
    ensures p > 0 <==> fgi.Some? && 0 < fgi.value < 40
    ensures p < 0 <==> fgi.Some? && fgi.value > 60
  {
    if fgi.None? || fgi.value == 0 then 0
    else if fgi.value < 25 then 15
    else if fgi.value < 40 then 5
    else if fgi.value > 75 then -15
    else if fgi.value > 60 then -5
    else 0
  }

  /** `_calculate_macro_score`: 50 plus the three contributions, clamped. */
  function MacroScore(m: MacroContext): (r: Percent)
    ensures !Truthy(m.dxy) && !Truthy(m.vix) && (m.fearGreedIndex.None? || m.fearGreedIndex.value == 0) ==> r == 50
  {
    Clamp(50 + DxyPoints(m.dxy) + VixPoints(m.vix) + FearGreedPoints(m.fearGreedIndex))
  }

  /** The contributions sum to at most +50 and at least -50, so the clamp
      never takes effect, and both bounds are reached. */
  lemma MacroScoreUnclamped(m: MacroContext)
    ensures MacroScore(m) == 50 + DxyPoints(m.dxy) + VixPoints(m.vix) + FearGreedPoints(m.fearGreedIndex)
    ensures MacroScore(MacroContext(Some(90.0), None, Some(10.0), None, Some(10), None)) == 100
    ensures MacroScore(MacroContext(Some(120.0), None, Some(40.0), None, Some(90), None)) == 0
  {
  }

  /** Each macro input is read in one direction: for non-zero readings, a
      higher dollar index, a higher volatility index or a greedier market
      never raises its contribution. */
  lemma MacroPointsAntitone(a: real, b: real, f: Percent, g: Percent)
    requires a <= b
    requires f <= g
    ensures a != 0.0 && b != 0.0 ==> DxyPoints(Some(a)) >= DxyPoints(Some(b))
    ensures a != 0.0 && b != 0.0 ==> VixPoints(Some(a)) >= VixPoints(Some(b))
    ensures f != 0 ==> FearGreedPoints(Some(f)) >= FearGreedPoints(Some(g))
  {
  }

  // ---------------------------------------------------------------------
  // AI sentiment layer

  /** The sentiment anchor of each rating. */
  function RatingAnchor(t: SignalType): (a: int)
    ensures 5 <= a <= 95
  {
    match t
    case StrongBuy => 95
    case Buy => 75
    case WeakBuy => 60
    case Hold => 50
    case WeakSell => 40
    case Sell => 25
    case StrongSell => 5
  }

  /** Position of a signal type on the scale, 0 (STRONG_SELL) to 6 (STRONG_BUY). */
  function Rank(t: SignalType): (n: nat)
    ensures n <= 6
  {
    match t
    case StrongSell => 0
    case Sell => 1
    case WeakSell => 2
    case Hold => 3
    case WeakBuy => 4
    case Buy => 5
    case StrongBuy => 6
  }

  /** A more bullish rating has a strictly higher anchor. */
  lemma AnchorMonotone(s: SignalType, t: SignalType)
    requires Rank(s) < Rank(t)
    ensures RatingAnchor(s) < RatingAnchor(t)
  {
  }

  /** `_map_ai_to_score`: the score moves from 50 toward the rating's anchor
      in proportion to the confidence, and is truncated to an integer. The
      exact value 50 + (anchor - 50) * confidence / 100 is non-negative, so
      truncation is the floor: `100 * r <= 5000 + (anchor - 50) * confidence
      < 100 * r + 100`. */
  function SentimentScore(a: AIAnalysis): (r: Percent)
    ensures var x := 5000 + (RatingAnchor(a.rating) - 50) * a.confidence;
              100 * r <= x < 100 * r + 100
  {
    var x := 5000 + (RatingAnchor(a.rating) - 50) * a.confidence;
    assert 500 <= x <= 9500;
    x / 100
  }

  /** The sentiment score lies between 50 and the anchor, reaches the anchor
      at full confidence and stays at 50 with no confidence. */
  lemma SentimentBetween(a: AIAnalysis)
    ensures var b := RatingAnchor(a.rating);
      && (b >= 50 ==> 50 <= SentimentScore(a) <= b)
      && (b <= 50 ==> b <= SentimentScore(a) <= 50)
      && (a.confidence == 100 ==> SentimentScore(a) == b)
      && (a.confidence == 0 ==> SentimentScore(a) == 50)
  {
    var b := RatingAnchor(a.rating);
    var x := 5000 + (b - 50) * a.confidence;
    if b >= 50 {
      assert (b - 50) * a.confidence <= (b - 50) * 100;
    } else {
      assert (50 - b) * a.confidence <= (50 - b) * 100;
    }
  }

  // ---------------------------------------------------------------------
  // Fusion

  /** `_calculate_overall_score`: 40/30/30 with both optional layers, 60/40
      with one, the technical score alone with none, truncated. Every
      weighted sum is exact here (weights in tenths) and non-negative, so
      truncation is the floor of the weighted sum over 10. */
  function OverallScore(tech: Percent, macro: Option<Percent>, sentiment: Option<Percent>): (r: Percent)
    ensures macro.Some? && sentiment.Some? ==>
              10 * r <= 4 * tech + 3 * macro.value + 3 * sentiment.value < 10 * r + 10
    ensures macro.Some? && sentiment.None? ==> 10 * r <= 6 * tech + 4 * macro.value < 10 * r + 10
    ensures macro.None? && sentiment.Some? ==> 10 * r <= 6 * tech + 4 * sentiment.value < 10 * r + 10
    ensures macro.None? && sentiment.None? ==> r == tech
  {
    if macro.Some? && sentiment.Some? then (4 * tech + 3 * macro.value + 3 * sentiment.value) / 10
    else if macro.Some? then (6 * tech + 4 * macro.value) / 10
    else if sentiment.Some? then (6 * tech + 4 * sentiment.value) / 10
    else tech
  }

  /** The fused score never leaves the range of the layer scores it fuses,
      and agreeing layers fuse to their common value. */
  lemma OverallBetween(tech: Percent, macro: Option<Percent>, sentiment: Option<Percent>, lo: int, hi: int)
    requires lo <= tech <= hi
    requires macro.Some? ==> lo <= macro.value <= hi
    requires sentiment.Some? ==> lo <= sentiment.value <= hi
    ensures lo <= OverallScore(tech, macro, sentiment) <= hi
  {
  }

  /** Worked examples: technical 80 with macro 60 fuses to 72; with all three
      at 70 the score stays at 70. */
  lemma OverallExamples()
    ensures OverallScore(80, Some(60), None) == 72
    ensures OverallScore(70, Some(70), Some(70)) == 70
    ensures OverallScore(80, Some(60), Some(45)) == 63
  {
  }

  // ---------------------------------------------------------------------
  // Signal class

  /** `_score_to_signal_type`: cut-offs 80, 65, 55, 45, 35 and 20. */
  function ScoreToSignalType(score: int): (r: SignalType)
    ensures score >= 0 ==> Threshold(r) <= score
    ensures forall t :: Threshold(t) <= score ==> Rank(t) <= Rank(r)
    ensures score < 0 ==> r == StrongSell
  {
    if score >= 80 then StrongBuy
    else if score >= 65 then Buy
    else if score >= 55 then WeakBuy
    else if score >= 45 then Hold
    else if score >= 35 then WeakSell
    else if score >= 20 then Sell
    else StrongSell
  }

  /** The class's `SIGNAL_THRESHOLDS` table: the lowest score of each class. */
  function Threshold(t: SignalType): int {
    match t
    case StrongBuy => 80
    case Buy => 65
    case WeakBuy => 55
    case Hold => 45
    case WeakSell => 35
    case Sell => 20
    case StrongSell => 0
  }

  /** The hard-coded cut-offs agree with the threshold table: for a score
      of 0 or more, the class chosen is the one with the highest threshold
      not above the score. */
  lemma ThresholdsAgree(score: int)
    requires score >= 0
    ensures Threshold(ScoreToSignalType(score)) <= score
    ensures forall t: SignalType :: Threshold(t) <= score ==> Threshold(t) <= Threshold(ScoreToSignalType(score))
  {
  }

  /** A higher score never gives a more bearish class. */
  lemma SignalMonotone(s1: int, s2: int)
    requires s1 <= s2
    ensures Rank(ScoreToSignalType(s1)) <= Rank(ScoreToSignalType(s2))
  {
  }

  /** Each class is exactly the scores from its threshold up to (not
      including) the next threshold above it. */
  lemma SignalBands(score: Percent)
    ensures ScoreToSignalType(score) == StrongBuy <==> 80 <= score
    ensures ScoreToSignalType(score) == Buy <==> 65 <= score < 80
    ensures ScoreToSignalType(score) == WeakBuy <==> 55 <= score < 65
    ensures ScoreToSignalType(score) == Hold <==> 45 <= score < 55
    ensures ScoreToSignalType(score) == WeakSell <==> 35 <= score < 45
    ensures ScoreToSignalType(score) == Sell <==> 20 <= score < 35
    ensures ScoreToSignalType(score) == StrongSell <==> score < 20
  {
  }

  // ---------------------------------------------------------------------
  // Confidence

  function SumInts(xs: seq<int>): int {
    if xs == [] then 0 else xs[0] + SumInts(xs[1..])
  }

  function Mean(xs: seq<int>): real
    requires |xs| > 0
  {
    (SumInts(xs) as real) / (|xs| as real)
  }

  /** Sum of squared deviations from `m`. */
  function SquaredDeviations(xs: seq<int>, m: real): real {
    if xs == [] then 0.0 else (xs[0] as real - m) * (xs[0] as real - m) + SquaredDeviations(xs[1..], m)
  }

  /** Population variance. */
  function Variance(xs: seq<int>): (r: real)
    requires |xs| > 0
    ensures r >= 0.0
  {
    SquaredDeviationsNonNegative(xs, Mean(xs));
    SquaredDeviations(xs, Mean(xs)) / (|xs| as real)
  }

  lemma SquareNonNegative(d: real)
    ensures d * d >= 0.0
  {
  }

  lemma {:induction false} SquaredDeviationsNonNegative(xs: seq<int>, m: real)
    ensures SquaredDeviations(xs, m) >= 0.0
  {
    if xs != [] {
      SquareNonNegative(xs[0] as real - m);
      SquaredDeviationsNonNegative(xs[1..], m);
    }
  }

  lemma {:induction false} SumConstant(xs: seq<int>, x: int)
    requires forall i :: 0 <= i < |xs| ==> xs[i] == x
    ensures SumInts(xs) == |xs| * x
  {
    if xs != [] {
      SumConstant(xs[1..], x);
    }
  }

  lemma {:induction false} DeviationsAtValue(xs: seq<int>, x: int)
    requires forall i :: 0 <= i < |xs| ==> xs[i] == x
    ensures SquaredDeviations(xs, x as real) == 0.0
  {
    if xs != [] {
      DeviationsAtValue(xs[1..], x);
    }
  }

  /** Scores that all agree have zero variance. */
  lemma VarianceOfEqual(xs: seq<int>, x: int)
    requires |xs| > 0
    requires forall i :: 0 <= i < |xs| ==> xs[i] == x
    ensures Variance(xs) == 0.0
  {
    SumConstant(xs, x);
    var n := |xs| as real;
    assert (SumInts(xs) as real) == n * (x as real);
    assert Mean(xs) == x as real;
    DeviationsAtValue(xs, x);
  }

  /** The layer scores that are present, technical first. */
  function PresentScores(tech: Percent, macro: Option<Percent>, sentiment: Option<Percent>): (xs: seq<int>)
    ensures |xs| == 1 + (if macro.Some? then 1 else 0) + (if sentiment.Some? then 1 else 0)
    ensures xs[0] == tech
    ensures macro.Some? ==> macro.value in xs
    ensures sentiment.Some? ==> sentiment.value in xs
    ensures forall i :: 0 <= i < |xs| ==> 0 <= xs[i] <= 100
  {
    [tech] + (if macro.Some? then [macro.value] else []) + (if sentiment.Some? then [sentiment.value] else [])
  }

  /** The starting confidence: the analysis's own, else 50. */
  function BaseConfidence(ai: Option<AIAnalysis>): (r: Percent)
    ensures ai.None? ==> r == 50
    ensures ai.Some? ==> r == ai.value.confidence
  {
    if ai.Some? then ai.value.confidence else 50
  }

  /** `_calculate_confidence`: with two or more layer scores, a variance below
      100 adds 10 (capped at 100) and one above 400 removes 15 (floored at 0). */
  function Confidence(tech: Percent, macro: Option<Percent>, sentiment: Option<Percent>,
                      ai: Option<AIAnalysis>): (r: Percent)
    ensures var base := BaseConfidence(ai);
      var xs := PresentScores(tech, macro, sentiment);
      && (|xs| < 2 ==> r == base)
      && (|xs| >= 2 && Variance(xs) < 100.0 ==> r == if base + 10 > 100 then 100 else base + 10)
      && (|xs| >= 2 && Variance(xs) > 400.0 ==> r == if base < 15 then 0 else base - 15)
      && (|xs| >= 2 && 100.0 <= Variance(xs) <= 400.0 ==> r == base)
  {
    var base := BaseConfidence(ai);
    var xs := PresentScores(tech, macro, sentiment);
    if |xs| < 2 then base
    else
      var v := Variance(xs);
      if v < 100.0 then (if base + 10 > 100 then 100 else base + 10)
      else if v > 400.0 then (if base < 15 then 0 else base - 15)
      else base
  }

  /** The adjustment moves the confidence by at most 15 either way, and
      only when a second layer is there to agree or disagree. */
  lemma ConfidenceAdjustmentBound(tech: Percent, macro: Option<Percent>, sentiment: Option<Percent>,
                                  ai: Option<AIAnalysis>)
    ensures var d := Confidence(tech, macro, sentiment, ai) - BaseConfidence(ai);
              -15 <= d <= 10
    ensures macro.None? && sentiment.None? ==> Confidence(tech, macro, sentiment, ai) == BaseConfidence(ai)
  {
  }

  /** Layers that agree exactly always earn the agreement bonus. */
  lemma AgreementBoosts(tech: Percent, macro: Option<Percent>, sentiment: Option<Percent>,
                        ai: Option<AIAnalysis>)
    requires macro.Some? || sentiment.Some?
    requires macro.Some? ==> macro.value == tech
    requires sentiment.Some? ==> sentiment.value == tech
    ensures var base := BaseConfidence(ai);
      Confidence(tech, macro, sentiment, ai) == if base + 10 > 100 then 100 else base + 10
  {
    var xs := PresentScores(tech, macro, sentiment);
    forall i | 0 <= i < |xs| ensures xs[i] == tech {
    }
    VarianceOfEqual(xs, tech);
  }

  /** Worked example: layers 70, 75 and 72 are close (variance 38/9), so an
      analysis confidence of 60 rises to 70. */
  lemma ConfidenceExample(ai: AIAnalysis)
    requires ai.confidence == 60
    ensures Confidence(70, Some(75), Some(72), Some(ai)) == 70
  {
    var xs := PresentScores(70, Some(75), Some(72));
    assert xs == [70, 75, 72];
    assert SumInts(xs) == 217;
    var m := Mean(xs);
    assert m == 217.0 / 3.0;
    assert SquaredDeviations(xs, m) == 38.0 / 3.0;
    assert Variance(xs) == 38.0 / 9.0;
  }

  // ---------------------------------------------------------------------
  // Trade levels

  /** Action text per signal class. */
  function Action(t: SignalType): string {
    match t
    case StrongBuy => "Enter Long Position (High Conviction)"
    case Buy => "Enter Long Position"
    case WeakBuy => "Scale In (Small Position)"
    case Hold => "Wait / Hold Current Positions"
    case WeakSell => "Consider Taking Profits"
    case Sell => "Exit Long Positions"
    case StrongSell => "Exit All Positions (Urgent)"
  }

  /** Different classes always read differently. */
  lemma ActionsDistinct(s: SignalType, t: SignalType)
    requires s != t
    ensures Action(s) != Action(t)
  {
  }

  /** Action, entry zone, targets and stop loss. */
  datatype Levels = Levels(action: string, entryZone: EntryZone, targets: seq<real>, stopLoss: Option<real>)

  /** The AI's levels are used whenever it gives a non-zero low entry. */
  predicate UsesAiLevels(ai: Option<AIAnalysis>) {
    ai.Some? && Truthy(ai.value.entryZoneLow)
  }

  /** `_determine_trade_levels`. None is the TypeError the source raises when
      it formats the AI's entry zone and the high end is missing. */
  function TradeLevels(signal: SignalType, price: real, t: TechnicalIndicators,
                       ai: Option<AIAnalysis>): (r: Option<Levels>)
    ensures r.None? <==> UsesAiLevels(ai) && ai.value.entryZoneHigh.None?
    ensures r.Some? ==> r.value.action == Action(signal)
    ensures r.Some? && UsesAiLevels(ai) ==>
              var a := ai.value;
              && r.value.entryZone == Range(a.entryZoneLow.value, a.entryZoneHigh.value)
              && r.value.targets == [OrElse(a.targetConservative, price * 1.1),
                                     OrElse(a.targetAggressive, price * 1.2)]
              && r.value.stopLoss == Some(OrElse(a.stopLoss, price * 0.9))
    ensures r.Some? && !UsesAiLevels(ai) && signal in {StrongBuy, Buy} ==>
              && r.value.entryZone == Range(price * 0.98, price * 1.02)
              && r.value.targets == [price * 1.1, price * 1.2, price * 1.3]
              && r.value.stopLoss == Some(if t.bbLower != 0.0 then t.bbLower else price * 0.92)
    ensures r.Some? && !UsesAiLevels(ai) && signal in {WeakSell, Sell, StrongSell} ==>
              r.value == Levels(Action(signal), AtCurrentPrice(price), [], None)
    ensures r.Some? && !UsesAiLevels(ai) && signal in {Hold, WeakBuy} ==>
              r.value == Levels(Action(signal), WaitForSetup, [], None)
  {
    if UsesAiLevels(ai) then
      var a := ai.value;
      if a.entryZoneHigh.None? then None
      else Some(Levels(Action(signal), Range(a.entryZoneLow.value, a.entryZoneHigh.value),
                       [OrElse(a.targetConservative, price * 1.1), OrElse(a.targetAggressive, price * 1.2)],
                       Some(OrElse(a.stopLoss, price * 0.9))))
    else if signal in {StrongBuy, Buy} then
      Some(Levels(Action(signal), Range(price * 0.98, price * 1.02),
                  [price * 1.1, price * 1.2, price * 1.3],
                  Some(OrElse(Some(t.bbLower), price * 0.92))))
    else if signal in {WeakSell, Sell, StrongSell} then
      Some(Levels(Action(signal), AtCurrentPrice(price), [], None))
    else
      Some(Levels(Action(signal), WaitForSetup, [], None))
  }

  /** For a positive price and no AI levels, a buy is set up sensibly: the
      entry zone brackets the price, the targets climb above it, and the
      stop sits below it whenever the lower band does. */
  lemma BuyLevelsOrdered(signal: SignalType, price: real, t: TechnicalIndicators, ai: Option<AIAnalysis>)
    requires price > 0.0 && signal in {StrongBuy, Buy} && !UsesAiLevels(ai)
    requires t.bbLower < price
    ensures var r := TradeLevels(signal, price, t, ai);
      && r.Some?
      && r.value.entryZone.Range? && r.value.entryZone.low < price < r.value.entryZone.high
      && |r.value.targets| == 3
      && price < r.value.targets[0] < r.value.targets[1] < r.value.targets[2]
      && r.value.stopLoss.Some? && r.value.stopLoss.value < price
  {
  }

  // ---------------------------------------------------------------------
  // Position size

  /** Base position size (percent of portfolio) per class. */
  function BaseSize(t: SignalType): (s: real)
    ensures 0.0 <= s <= 10.0
  {
    match t
    case StrongBuy => 10.0
    case Buy => 7.0
    case WeakBuy => 3.0
    case _ => 0.0
  }

  function Abs(x: real): (r: real)
    ensures r >= 0.0 && (r == x || r == -x)
  {
    if x < 0.0 then -x else x
  }

  /** The volatility damping factor for a 24h change. */
  function VolatilityFactor(change24h: real): (f: real)
    ensures 0.7 <= f <= 1.0
    ensures Abs(change24h) > 10.0 ==> f == 0.7
    ensures 5.0 < Abs(change24h) <= 10.0 ==> f == 0.85
    ensures Abs(change24h) <= 5.0 ==> f == 1.0
  {
    var v := Abs(change24h);
    if v > 10.0 then 0.7 else if v > 5.0 then 0.85 else 1.0
  }

  /** `_recommend_position_size`: base size scaled by confidence and damped
      for volatile coins; only buy classes get a non-zero size. */
  function PositionSize(signal: SignalType, confidence: Percent, change24h: real): (r: real)
    ensures 0.0 <= r <= BaseSize(signal)
    ensures signal !in {StrongBuy, Buy, WeakBuy} ==> r == 0.0
    ensures confidence == 0 ==> r == 0.0
    ensures Abs(change24h) <= 5.0 ==> r == BaseSize(signal) * (confidence as real / 100.0)
    ensures 5.0 < Abs(change24h) <= 10.0 ==> r == 0.85 * BaseSize(signal) * (confidence as real / 100.0)
    ensures Abs(change24h) > 10.0 ==> r == 0.7 * BaseSize(signal) * (confidence as real / 100.0)
  {
    var c := confidence as real / 100.0;
    var f := VolatilityFactor(change24h);
    var s := BaseSize(signal) * c;
    assert 0.0 <= s <= BaseSize(signal);
    s * f
  }

  /** A calmer coin never gets a smaller position than a more volatile one. */
  lemma CalmerNotSmaller(signal: SignalType, confidence: Percent, c1: real, c2: real)
    requires Abs(c1) <= Abs(c2)
    ensures PositionSize(signal, confidence, c2) <= PositionSize(signal, confidence, c1)
  {
    var s := BaseSize(signal) * (confidence as real / 100.0);
    assert s >= 0.0;
    assert VolatilityFactor(c2) <= VolatilityFactor(c1);
  }

  /** At full confidence a STRONG_BUY is 10% of the portfolio, 8.5% after a
      7% move and 7% after a 20% move either way. */
  lemma PositionSizeExamples()
    ensures PositionSize(StrongBuy, 100, 2.0) == 10.0
    ensures PositionSize(StrongBuy, 100, -7.0) == 8.5
    ensures PositionSize(StrongBuy, 100, 20.0) == 7.0
  {
  }

  // ---------------------------------------------------------------------
  // The whole signal

  /** The record returned when signal generation fails. */
  function FallbackSignal(coin: string): (r: MultiLayerSignal)
    ensures r.signal == Hold && r.overallScore == 50 && r.confidence == 0 && r.technicalScore == 50
    ensures r.action == "Wait for better setup" && r.timeframe == "N/A"
  {
    NewSignal(coin, Hold, 50, 0, 50, "Wait for better setup").(timeframe := "N/A")
  }

  /** `generate_signal`. The on-chain layer is never computed. */
  function GenerateSignal(coin: string, price: CoinPrice, t: TechnicalIndicators,
                          ai: Option<AIAnalysis>, macro: Option<MacroContext>): (r: MultiLayerSignal)
    ensures r.coin == coin && r.onChainScore.None?
    ensures UsesAiLevels(ai) && ai.value.entryZoneHigh.None? ==> r == FallbackSignal(coin)
    ensures !(UsesAiLevels(ai) && ai.value.entryZoneHigh.None?) ==>
              var m := if macro.Some? then Some(MacroScore(macro.value)) else None;
              var s := if ai.Some? then Some(SentimentScore(ai.value)) else None;
              && r.technicalScore == CalculateTechnicalScore(t)
              && r.macroScore == m && r.sentimentScore == s
              && r.overallScore == OverallScore(r.technicalScore, m, s)
              && r.signal == ScoreToSignalType(r.overallScore)
              && r.confidence == Confidence(r.technicalScore, m, s, ai)
              && r.action == Action(r.signal)
              && r.positionSizePct == Some(PositionSize(r.signal, r.confidence, price.change24h))
              && r.timeframe == (if ai.Some? then TimeframeName(ai.value.timeframe) else DefaultSignalTimeframe)
              && var l := TradeLevels(r.signal, price.price, t, ai);
                 && l.Some?
                 && r.entryZone == Some(l.value.entryZone)
                 && r.targets == l.value.targets
                 && r.stopLoss == l.value.stopLoss
  {
    var tech := CalculateTechnicalScore(t);
    var m := if macro.Some? then Some(MacroScore(macro.value)) else None;
    var s := if ai.Some? then Some(SentimentScore(ai.value)) else None;
    var overall := OverallScore(tech, m, s);
    var signal := ScoreToSignalType(overall);
    var confidence := Confidence(tech, m, s, ai);
    var levels := TradeLevels(signal, price.price, t, ai);
    if levels.None? then FallbackSignal(coin)
    else
      var l := levels.value;
      MultiLayerSignal(coin, signal, overall, confidence, tech, None, m, s, l.action,
                       Some(l.entryZone), l.targets, l.stopLoss,
                       Some(PositionSize(signal, confidence, price.change24h)),
                       if ai.Some? then TimeframeName(ai.value.timeframe) else DefaultSignalTimeframe)
  }

  /** On every path, success or fallback, the signal class is the one its
      overall score calls for. */
  lemma SignalMatchesScore(coin: string, price: CoinPrice, t: TechnicalIndicators,
                           ai: Option<AIAnalysis>, macro: Option<MacroContext>)
    ensures var r := GenerateSignal(coin, price, t, ai, macro);
      r.signal == ScoreToSignalType(r.overallScore)
  {
  }

  /** Only a buy class ever recommends a position, and never more than
      10% of the portfolio. */
  lemma PositionOnlyOnBuy(coin: string, price: CoinPrice, t: TechnicalIndicators,
                          ai: Option<AIAnalysis>, macro: Option<MacroContext>)
    ensures var r := GenerateSignal(coin, price, t, ai, macro);
      r.positionSizePct.Some? ==>
        0.0 <= r.positionSizePct.value <= 10.0
        && (r.signal !in {StrongBuy, Buy, WeakBuy} ==> r.positionSizePct.value == 0.0)
  {
  }
}
